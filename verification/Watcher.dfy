/**
 * services/watcher/watcher.go, as it runs: one process over the tables, the Horizon server and the
 * Soroban network. A ghost copy of the protocol state moves along with it; Valid says that copy is reachable,
 * so everything proved of the protocol holds of the objects.
 */
module Watcher {
  import opened Wrappers
  import opened Decimals
  import opened Models
  import opened Backlog
  import opened Matcher
  import opened Horizon
  import opened Ingest
  import opened Instruction
  import opened ScVal
  import opened Protocol
  import opened Safety
  import opened Steps
  import opened Soundness
  import opened Sweep
  import opened Recovery
  import opened Client
  import opened Database
  import opened Effects
  import Contract
  import Strkey
  import Ingestion
  import opened Paging

  datatype PollEnv = PollEnv(cursorLost: bool, down: bool, each: nat -> ProcessEnv)

  datatype SweepEnv = SweepEnv(lookupFails: bool, each: nat -> WriteEnv)

  /** A POST /orders and the id it draws. */
  datatype Request = Request(config: StellarConfig, id: string, productRef: string, amount: Decimal, buyer: string,
    now: nat)

  /** What the ledger records and the buyers order before a round, and what its poll and its sweep meet. */
  datatype Round = Round(records: seq<Record>, requests: seq<Request>, poll: PollEnv, sweep: SweepEnv)

  /** The table after requests one by one: one that is refused, or whose id is taken, adds nothing. */
  function PlacedOrders(orders: Orders, requests: seq<Request>): Orders {
    if requests == [] then orders
    else
      var before, q := PlacedOrders(orders, requests[..|requests| - 1]), requests[|requests| - 1];
      if q.id in before || Answer(q).Err? then before else before[q.id := Answer(q).value.0]
  }

  function Answer(q: Request): Result<(OrderIntent, PaymentInstruction), InstructionError> {
    NewOrder(q.config, q.id, q.productRef, q.amount, q.buyer, q.now)
  }

  /** All that a round finds and leaves: the ledger, the tables, the chain, the counters and the attempts so far. */
  datatype Point = Point(records: seq<Record>, db: Db, chain: Chain, failed: map<string, nat>,
    attempts: map<string, nat>)

  /** The payments a round's poll asks for. */
  ghost function Asked(stream: string, limit: nat, a: Point, r: Round): seq<Payment> {
    Payments(Page(a.records + r.records, if r.poll.cursorLost then 0 else Cursor(a.db, stream), limit))
  }

  /** Tables and chain after its poll, and how many payments that handled, up to the first that fails. */
  ghost function Heard(on: bool, stream: string, limit: nat, a: Point, r: Round): (Db, Chain, nat) {
    var placed := a.db.(orders := PlacedOrders(a.db.orders, r.requests));
    if r.poll.down then (placed, a.chain, 0)
    else Handled(on, placed, a.chain, Asked(stream, limit, a, r), stream, r.poll.each)
  }

  ghost predicate PollFails(on: bool, stream: string, limit: nat, a: Point, r: Round) {
    r.poll.down || Heard(on, stream, limit, a, r).2 < |Asked(stream, limit, a, r)|
  }

  /**
   * One round, exactly. The poll handles the page after the cursor; if it did not fail and the page was not full, and
   * the process writes to the chain and its query works, the sweep tries what it chooses among the rows of that query,
   * and nothing otherwise.
   */
  ghost predicate RoundStep(on: bool, stream: string, limit: nat, a: Point, r: Round, b: Point,
    rows: seq<OrderIntent>, tries: seq<Try>)
  {
    var (db, chain, n) := Heard(on, stream, limit, a, r);
    && b.records == a.records + r.records
    && (if on && !r.sweep.lookupFails && !PollFails(on, stream, limit, a, r) && n < limit then
          && IsSweepQuery(db.orders, rows) && TriedIds(tries) == Chosen(rows, a.failed)
          && (b.db, b.chain, tries) == Swept(db, chain, rows, a.failed, r.sweep.each)
        else (b.db, b.chain, tries) == (db, chain, []))
    && b.failed == FailedAfterAll(a.failed, tries)
    && forall k :: Count(b.attempts, k) == Count(a.attempts, k) + if k in TriedIds(tries) then 1 else 0
  }

  /** One round after the other, from each point to the next. */
  ghost predicate Course(on: bool, stream: string, limit: nat, rounds: seq<Round>, course: seq<Point>) {
    && |course| == |rounds| + 1
    && forall i :: 0 <= i < |rounds| ==> RoundOf(on, stream, limit, course[i], rounds[i], course[i + 1])
  }

  ghost predicate RoundOf(on: bool, stream: string, limit: nat, a: Point, r: Round, b: Point) {
    exists rows, tries :: RoundStep(on, stream, limit, a, r, b, rows, tries)
  }

  /** All that the ledger records over the rounds. */
  function Arriving(rounds: seq<Round>): seq<Record> {
    if rounds == [] then [] else rounds[0].records + Arriving(rounds[1..])
  }

  /** No fetch or statement fails. */
  ghost predicate FaultFree(env: PollEnv) { !env.down && forall i: nat :: env.each(i).fault == NoFault }

  /** A round in which nothing goes wrong with the poll; what its chain writes and its sweep meet is free. */
  ghost predicate Quiet(r: Round) { !r.poll.cursorLost && FaultFree(r.poll) }

  /** A round in which nothing goes wrong at all, and nothing arrives on the ledger. */
  ghost predicate Calm(r: Round) {
    && r.records == [] && Quiet(r) && !r.sweep.lookupFails
    && forall i: nat :: CleanCalls(r.sweep.each(i)) && r.sweep.each(i).saved
  }

  /** Nothing goes wrong with the polls, and nothing arrives on the ledger. */
  ghost predicate Undisturbed(rounds: seq<Round>) {
    forall i :: 0 <= i < |rounds| ==> Quiet(rounds[i]) && rounds[i].records == []
  }

  ghost predicate AllCalm(rounds: seq<Round>) { forall i :: 0 <= i < |rounds| ==> Calm(rounds[i]) }

  /** The verdict is on chain, and the database does not know: settled, without a hash, over a final entry. */
  ghost predicate Untold(orders: Orders, store: Contract.Store, id: string) {
    Unsynced(orders, id) && FinalIn(store, id)
  }

  /**
   * What rounds of any outcome keep, for the attempts made so far: no verdict is rewritten, no lost hash comes back,
   * and an order behind twenty older exhausted ones stays there untried.
   */
  ghost predicate Kept(a: Scene, before: map<string, nat>, b: Scene, after: map<string, nat>) {
    && OrdersGrow(a.orders, b.orders)
    && (forall k :: Untold(a.orders, a.store, k) ==> Untold(b.orders, b.store, k))
    && (forall id, elders :: Blocked(a.orders, a.failed, id, elders) ==>
          Blocked(b.orders, b.failed, id, elders) && Count(after, id) == Count(before, id))
  }

  class Process {
    const name: string
    const stream: string
    const limit: nat := PAGE_LIMIT
    const chainWrites: bool
    const db: Tables
    const server: Server
    const net: Network
    var chainFailed: map<string, nat>
    ghost const streams: map<string, string>
    ghost var world: State

    ghost predicate Valid()
      reads this, db, server, net, net.contract
    {
      && net.Valid() && Reachable(streams, world) && name in world.watchers
      && world.raw == server.records && world.db == db.View() && world.chain == net.View()
      && world.watchers[name].failed == chainFailed && world.watchers[name].stream == stream
      && world.watchers[name].wait == None
    }

    /** No page at hand, no transaction open, no order being written. */
    ghost predicate Free()
      reads this
    {
      name in world.watchers && world.watchers[name].page == [] && world.watchers[name].read == None
        && world.watchers[name].job == None
    }

    /** Between polls and sweeps. */
    ghost predicate Idle()
      reads this
    {
      Free() && SweepOver(world.watchers[name])
    }

    ghost function Now(): Scene
      reads this, db, net, net.contract
    {
      Scene(db.orders, chainFailed, net.contract.orders)
    }

    /** A process starts, or restarts after a crash, with empty counters over whatever state it finds. */
    constructor (name: string, stream: string, chainWrites: bool, db: Tables, server: Server, net: Network,
                 ghost streams: map<string, string>, ghost found: State)
      requires net.Valid() && Reachable(streams, found) && name in found.watchers
      requires found.raw == server.records && found.db == db.View() && found.chain == net.View()
      ensures Valid() && Idle() && chainFailed == map[]
      ensures world.db == found.db && world.chain == found.chain && world.raw == found.raw
      ensures this.name == name && this.stream == stream && this.chainWrites == chainWrites
      ensures this.db == db && this.server == server && this.net == net && this.streams == streams
    {
      this.name, this.stream, this.chainWrites := name, stream, chainWrites;
      this.db, this.server, this.net := db, server, net;
      chainFailed := map[];
      this.streams := streams;
      world := Next(found, Step.Crash(name, stream));
      ReachStep(streams, found, Step.Crash(name, stream));
    }

    /**
     * writeChain. It reports success only for a verdict call that succeeded and was never acknowledged before; a
     * fault-free run succeeds exactly when the chain entry is not final yet (and, if absent, the wallet decodes).
     */
    method WriteChain(order: OrderIntent, terminal: OrderStatus, reason: RejectReason, env: WriteEnv)
      returns (ok: bool, ghost tx: TxHash)
      requires Valid() && order.id in db.orders && OrderFinal(terminal)
      requires Opening(db.orders[order.id]) == Opening(order)
      requires AtStart(world, name, order.id)
      requires db.orders[order.id].status == terminal && db.orders[order.id].rejectReason == reason
      modifies this`world, db`orders, net, net.contract
      ensures net.Valid() && Reachable(streams, world)
      ensures world == Written(old(world), name, chainWrites, if ok then Some(tx) else None).(chain := net.View())
      ensures ok ==> FreshAck(world, tx) && world.chain.succeeded[tx].id == order.id
      ensures (db.View(), net.View(), if ok then Some(tx) else None)
              == Writes(chainWrites, old(db.View()), old(net.View()), order.id, env)
      ensures db.View() == if ok && env.saved then WithHash(old(db.View()), order.id, tx) else old(db.View())
      ensures !chainWrites || FinalIn(old(net.contract.orders), order.id) ==> !ok
      ensures forall k :: old(FinalIn(net.contract.orders, k)) ==> FinalIn(net.contract.orders, k)
      ensures forall k :: old(Untold(db.orders, net.contract.orders, k)) ==> Untold(db.orders, net.contract.orders, k)
      ensures chainWrites && CleanCalls(env) ==>
        (ok <==> Healable(old(net.contract.orders), order.id, order.buyerWallet))
      ensures CleanCalls(env) ==> forall k :: k != order.id ==>
        SameEntry(old(net.contract.orders), net.contract.orders, k)
      ensures ok ==> order.id in net.contract.orders && Sendable(terminal, reason)
                     && net.contract.orders[order.id].status == ChainStatus(terminal, reason)
    {
      tx := 0;
      EntriesSame(net.contract.orders);
      assert world == Written(old(world), name, false, None).(chain := net.View());
      if !chainWrites {
        return false, tx;
      }
      hide Reachable, FinalIn, FreshAck, Healable, CleanCalls, Untold, At, SameEntry, Wrote;
      var r := SendCalls(order, terminal, reason, env);
      if r.Err? {
        return false, tx;
      }
      var hash := r.value;
      AckOnChain(streams, world, order.id, hash);
      if env.saved {
        db.SaveHash(order.id, hash);
      }
      return true, hash;
    }

    /** The three calls; only the outcome of the last one is kept, and it alone decides. */
    method SendCalls(order: OrderIntent, terminal: OrderStatus, reason: RejectReason, env: WriteEnv)
      returns (r: Result<TxHash, InvokeError>)
      requires Valid() && order.id in db.orders && OrderFinal(terminal)
      requires Opening(db.orders[order.id]) == Opening(order)
      requires AtStart(world, name, order.id)
      requires db.orders[order.id].status == terminal && db.orders[order.id].rejectReason == reason
      modifies this`world, net, net.contract
      ensures net.Valid() && Reachable(streams, world)
        && world == Written(old(world), name, true, if r.Ok? then Some(r.value) else None).(chain := net.View())
      ensures (net.View(), r) == Wrote(old(net.View()), db.orders[order.id], env)
      ensures r.Ok? ==> FreshAck(world, r.value) && world.chain.succeeded[r.value].id == order.id
      ensures FinalIn(old(net.contract.orders), order.id) ==> r.Err?
      ensures forall k :: old(FinalIn(net.contract.orders, k)) ==> FinalIn(net.contract.orders, k)
      ensures Clean(env.verdict) ==>
        var now := BeforeVerdict(old(net.View()), db.orders[order.id], env).store;
        r.Ok? <==> DetectedIn(now, order.id)
      ensures Clean(env.verdict) && DetectedIn(old(net.contract.orders), order.id)
              && env.create.before == [] && env.detect.before == [] ==>
        r.Ok?
      ensures CleanCalls(env) ==> (r.Ok? <==> Healable(old(net.contract.orders), order.id, order.buyerWallet))
      ensures CleanCalls(env) ==> forall k :: k != order.id ==>
        SameEntry(old(net.contract.orders), net.contract.orders, k)
    {
      hide SameEntry, Reachable, Clean, FinalIn, Contract.Apply, Contract.Accepts, CleanChain, FreshAck, Healable,
        OpenCall, Inv, Sent, Written, Told, Advanced, At, Invoked, Wrote, BeforeVerdict, DetectedIn, CleanCalls;
      ghost var row := db.orders[order.id];
      ReachableSafe(streams, world);
      JudgedRow(world, order.id);
      SameCalls(order, row);
      WriteOutcomes(net.View(), row, env);
      OpenOrder(order, env.create);
      AdvancedIs(old(world), name, net.View());
      ghost var registered, afterOpen := world, net.View();
      var detected := SetStatus(order.id, PaymentDetected, NoReason, env.detect);
      Ignored(streams, registered, net.View(), name, detected);
      AdvancedIs(registered, name, net.View());
      world := Advanced(registered, name, None).(chain := net.View());
      ghost var detectedAt := net.View();
      r := SetStatus(order.id, terminal, reason, env.verdict);
      WroteBy(old(net.View()), row, env, afterOpen, detectedAt);
      ThreeCalls(old(world), name, afterOpen, detectedAt, net.View(), r);
      WrittenIs(old(world), name, if r.Ok? then Some(r.value) else None, net.View());
      if r.Ok? {
        AckIsFresh(streams, old(world), world, order.id, r.value);
      }
    }

    /**
     * Client.CreateOrder: nothing is sent for a wallet that is not a decodable account; otherwise the stroops go
     * out in two halves, and the contract reads the amount they make.
     */
    method OpenOrder(order: OrderIntent, env: CallEnv)
      requires net.Valid() && Reachable(streams, world) && world.chain == net.View()
      requires AtStart(world, name, order.id) && world.watchers[name].wait == None
      requires order.id in world.db.orders && Judged(world.db.orders[order.id])
      requires world.db.orders[order.id].id == order.id && Opening(world.db.orders[order.id]) == Opening(order)
      modifies this`world, net, net.contract
      ensures net.Valid() && Reachable(streams, world)
        && world == Advanced(old(world), name, None).(chain := net.View()) && net.next >= old(net.next)
      ensures forall k :: old(FinalIn(net.contract.orders, k)) ==> FinalIn(net.contract.orders, k)
      ensures net.View() ==
        if Strkey.Decodes(order.buyerWallet) then
          Invoked(old(net.View()), OpenCall(old(world).db.orders[order.id]), env).0
        else old(net.View())
      ensures Clean(env) && Strkey.Decodes(order.buyerWallet) ==>
        net.contract.orders == Contract.Apply(old(net.contract.orders), OpenCall(old(world).db.orders[order.id]))
    {
      hide Reachable, Clean, FinalIn, Contract.Apply, Contract.Accepts, CleanChain, OpenCall, Invoked;
      SameCalls(order, world.db.orders[order.id]);
      if !Strkey.Decodes(order.buyerWallet) {
        Missed(streams, world, name);
        world := Advanced(world, name, None);
        return;
      }
      var amount := ScI128(ChainStroops(order.expectedAmount));
      I128RoundTrip(ChainStroops(order.expectedAmount));
      var call := Contract.CreateCall(order.id, order.buyerWallet, DecodeI128(amount), order.assetCode,
        Contract.Sha256(order.memo));
      AsOpenCall(order, DecodeI128(amount));
      OpenPermitted(world.db.orders, order.id);
      CleanStore(net.View(), call);
      var created := net.Invoke(call, env, name, streams, world);
      Ignored(streams, world, net.View(), name, created);
      world := Advanced(world, name, None).(chain := net.View());
    }

    /** Client.SetStatus: encode the status, then invoke; the contract decodes what was meant. */
    method SetStatus(id: string, status: OrderStatus, reason: RejectReason, env: CallEnv)
      returns (r: Result<TxHash, InvokeError>)
      requires net.Valid() && Reachable(streams, world) && world.chain == net.View()
      requires Sendable(status, reason) && Calling(world, name, Contract.StatusCall(id, ChainStatus(status, reason)))
      modifies this`world, net, net.contract
      ensures net.Valid() && Reachable(streams, world) && world == Told(old(world), net.View(), name, r)
        && net.next >= old(net.next)
      ensures (net.View(), r) == Invoked(old(net.View()), Contract.StatusCall(id, ChainStatus(status, reason)), env)
      ensures r.Ok? ==> r.value >= old(net.next) && r.value in net.succeeded
                        && net.succeeded[r.value] == Contract.StatusCall(id, ChainStatus(status, reason))
      ensures forall k :: old(FinalIn(net.contract.orders, k)) ==> FinalIn(net.contract.orders, k)
      ensures old(FinalIn(net.contract.orders, id)) ==> r.Err?
      ensures Clean(env) ==>
        && net.View() == CleanChain(old(net.View()), Contract.StatusCall(id, ChainStatus(status, reason)))
        && (r.Ok? <==> Contract.Accepts(old(net.contract.orders), Contract.StatusCall(id, ChainStatus(status, reason))))
    {
      hide Invoked;
      StatusRoundTrip(status, reason);
      var encoded := StatusScVal(status, reason);
      var decoded := DecodeStatus(encoded.value);
      r := net.Invoke(Contract.StatusCall(id, decoded.value), env, name, streams, world);
      world := Told(world, net.View(), name, r);
    }

    /**
     * process: one payment in one transaction, then the chain. A failed statement leaves the tables as they
     * were; otherwise they are CommitTx of the payment and the order its memo names, but for a saved hash.
     */
    method Process(p: Payment, env: ProcessEnv) returns (failed: bool)
      requires Valid() && world.watchers[name].page != [] && world.watchers[name].page[0] == p
      requires world.watchers[name].read == None && world.watchers[name].job == None
      modifies this`world, db, net, net.contract
      ensures Valid()
      ensures world.watchers[name] ==
        if failed then old(world.watchers[name]).(page := [], caught := false)
        else old(world.watchers[name]).(page := old(world.watchers[name]).page[1..])
      ensures failed <==> Strikes(old(db.View()), p, env.fault)
      ensures failed ==> db.View() == old(db.View()) && net.View() == old(net.View()) && env.fault != NoFault
      ensures !failed ==>
        var h := Processed(chainWrites, old(db.View()), old(net.View()), p, stream, env.write);
        db.View() == h.0 && net.View() == h.1
      ensures chainWrites && CleanCalls(env.write) ==>
        Recorded(old(db.orders), old(net.contract.orders), db.orders, net.contract.orders, env.write.saved)
      ensures !failed ==>
        SameButHashes(db.View(), CommitTx(old(db.View()), p, FindByMemo(old(db.orders), p.memo), stream))
      ensures OrdersGrow(old(db.orders), db.orders) && old(db.evidence) <= db.evidence
      ensures forall k :: old(Untold(db.orders, net.contract.orders, k)) ==> Untold(db.orders, net.contract.orders, k)
      ensures Later(old(db.orders), [], db.orders)
    {
      hide Untold, Later, Reachable, OrdersGrow, Strikes, Processed, Recorded, Writes, CleanCalls, Healable, CommitTx,
        FindByMemo, Settles, Seen, SameButHashes;
      ghost var before, chain := db.View(), net.View();
      NothingStrikes(before, p, env.fault);
      RecordedNothing(db.orders, net.contract.orders, env.write.saved);
      ProcessedIs(chainWrites, before, chain, p, stream, env.write);
      KnownRows(streams, world);
      if CleanCalls(env.write) {
        CleanPayment(before, chain, p, stream, env.write);
      }
      LaterSame(db.orders);
      GrowReflexive(db.orders);
      var settled;
      failed, settled := Commit(p, env.fault);
      if !failed {
        SameHashes(db.View());
      }
      if settled.Some? {
        var (order, terminal, reason) := settled.value;
        ghost var committed := db.View();
        WriteSettled(order, terminal, reason, env.write);
        GrowTransitive(before.orders, committed.orders, db.orders);
        SettledLater(before, p, FindByMemo(before.orders, p.memo), stream, db.orders);
      }
    }

    /** The transaction, with the lookup and the commit or rollback it is to others. */
    method Commit(p: Payment, fault: Fault)
      returns (failed: bool, settled: Option<(OrderIntent, OrderStatus, RejectReason)>)
      requires Valid() && world.watchers[name].page != [] && world.watchers[name].page[0] == p
      requires world.watchers[name].read == None && world.watchers[name].job == None
      modifies this`world, db
      ensures Valid() && (failed <==> Strikes(old(db.View()), p, fault))
      ensures failed ==>
        settled == None && db.View() == old(db.View())
        && world.watchers[name] == old(world.watchers[name]).(page := [], caught := false)
      ensures var copy, l := FindByMemo(old(db.orders), p.memo), old(world.watchers[name]);
              !failed ==>
                && db.View() == CommitTx(old(db.View()), p, copy, stream)
                && world.watchers[name] == l.(page := l.page[1..], job := world.watchers[name].job)
                && (settled.Some? <==> !Seen(old(db.evidence), p.id) && Settles(old(db.orders), p, copy))
                && (settled.None? ==> world.watchers[name].job == None)
                && (settled.Some? ==>
                      var (order, terminal, reason) := settled.value;
                      && copy == Some(order) && order.id in db.orders && OrderFinal(terminal)
                      && AtStart(world, name, order.id) && !world.watchers[name].job.value.retry
                      && Opening(db.orders[order.id]) == Opening(order)
                      && db.orders[order.id].status == terminal && db.orders[order.id].rejectReason == reason)
      ensures OrdersGrow(old(db.orders), db.orders) && old(db.evidence) <= db.evidence
      ensures Later(old(db.orders), [], db.orders)
      ensures forall k :: old(Untold(db.orders, net.contract.orders, k)) ==> Untold(db.orders, net.contract.orders, k)
    {
      hide Untold, Later, Reachable, Match, OrdersAfter, EvidenceOf, Settles, Seen, OrdersGrow, SetVerdict, Strikes,
        Next, Enabled, CommitTx, FindByMemo;
      ghost var before := world;
      LaterSame(db.orders);
      GrowReflexive(db.orders);
      ghost var copy := FindByMemo(db.orders, p.memo);
      LookedUp(streams, world, name);
      world := Next(world, Step.Lookup(name));
      failed, settled := Transaction(p, fault);
      if failed {
        Aborted(streams, world, name);
        world := Next(world, Step.Abort(name));
        return;
      }
      CommittedAll(streams, world, name);
      world := Next(world, Step.Commit(name));
      CommitLater(before.db, p, copy, stream);
      CommitKeepsUntold(before.db, p, copy, stream, net.contract.orders);
      if settled.Some? {
        KnownRows(streams, before);
        SettledRowOf(before.db, p, copy, stream);
      }
    }

    /** The chain writes of an order this process just settled. */
    method WriteSettled(order: OrderIntent, terminal: OrderStatus, reason: RejectReason, env: WriteEnv)
      requires Valid() && order.id in db.orders && OrderFinal(terminal)
      requires AtStart(world, name, order.id) && !world.watchers[name].job.value.retry
      requires Opening(db.orders[order.id]) == Opening(order)
      requires db.orders[order.id].status == terminal && db.orders[order.id].rejectReason == reason
      modifies this`world, db`orders, net, net.contract
      ensures Valid() && world.watchers == old(world.watchers)[name := old(world.watchers[name]).(job := None)]
      ensures var w := Writes(chainWrites, old(db.View()), old(net.View()), order.id, env);
              db.View() == w.0 && net.View() == w.1
      ensures chainWrites && CleanCalls(env) && Healable(old(net.contract.orders), order.id, order.buyerWallet) ==>
        && order.id in net.contract.orders && Sendable(terminal, reason)
        && net.contract.orders[order.id].status == ChainStatus(terminal, reason)
        && (env.saved ==> db.orders[order.id].onChainTxHash.Some?)
      ensures SameButHashes(db.View(), old(db.View())) && OrdersGrow(old(db.orders), db.orders)
      ensures forall k :: old(Untold(db.orders, net.contract.orders, k)) ==> Untold(db.orders, net.contract.orders, k)
      ensures Later(old(db.orders), [order.id], db.orders)
    {
      hide Reachable, OrdersGrow, Untold, Later, Next, Enabled, FreshAck, Writes, CleanCalls, Healable;
      GrowReflexive(db.orders);
      ghost var before := db.View();
      var ok, tx := WriteChain(order, terminal, reason, env);
      HashLater(before, order.id, tx);
      if ok {
        SaveStep(streams, world, name, env.saved, tx);
        Advance(streams, world, Step.SaveHash(name, env.saved));
        world := Next(world, Step.SaveHash(name, env.saved));
      } else {
        WriteEnds(world, name);
        Advance(streams, world, Step.EndWrite(name));
        world := Next(world, Step.EndWrite(name));
      }
    }

    /** The transaction body: lookup, verdict, evidence, the two guarded updates and the cursor, or none of it. */
    method Transaction(p: Payment, fault: Fault)
      returns (failed: bool, settled: Option<(OrderIntent, OrderStatus, RejectReason)>)
      modifies db
      ensures failed <==> Strikes(old(db.View()), p, fault)
      ensures failed ==> settled == None && db.View() == old(db.View())
      ensures var copy := FindByMemo(old(db.orders), p.memo);
              !failed ==>
                && db.View() == CommitTx(old(db.View()), p, copy, stream)
                && (settled.Some? <==> !Seen(old(db.evidence), p.id) && Settles(old(db.orders), p, copy))
                && (settled.Some? ==>
                   var (v, r) := Match(Observe(p), copy); settled.value == (copy.value, Terminal(v), r))
    {
      var begin := db.View();
      settled := None;
      var order := FindByMemo(db.orders, p.memo);
      var (v, r) := Match(Observe(p), order);
      if fault == InsertFails {
        return true, None;
      }
      var inserted := db.InsertEvidence(EvidenceOf(p, order));
      if inserted && order.Some? && v != VerdictDuplicate {
        if fault == DetectFails {
          db.Rollback(begin);
          return true, None;
        }
        var detected := db.UpdateStatus(order.value.id, AwaitingPayment, PaymentDetected);
        if detected {
          if fault == VerdictFails {
            db.Rollback(begin);
            return true, None;
          }
          var updated := db.UpdateVerdict(order.value.id, PaymentDetected, Terminal(v), r);
          settled := Some((order.value, Terminal(v), r));
          assert db.orders == OrdersAfter(begin.orders, p, order);
        }
      }
      if fault == CursorFails {
        db.Rollback(begin);
        return true, None;
      }
      db.SaveCursor(stream, p.token);
      return false, settled;
    }

    /** The payments of the next page; a cursor that cannot be read counts as the empty one. */
    ghost function NextPage(lost: bool): seq<Payment>
      reads this, db, server
    {
      Payments(Page(server.records, if lost then 0 else Cursor(db.View(), stream), limit))
    }

    /**
     * pollOnce: handles the payments among the next `limit` raw records, one after the other, up to the first that
     * fails, and leaves the cursor on the last of them; only a statement that was executed makes a payment fail. With
     * clean calls every order it settles is on chain if its entry could be healed, and all else is left alone.
     */
    method PollOnce(env: PollEnv) returns (n: nat, failed: bool)
      requires Valid() && Idle()
      modifies this`world, db, net, net.contract
      ensures Valid() && Idle()
      ensures var page := old(NextPage(env.cursorLost));
              && Paged(old(db.View()), old(net.contract.orders), db.View(), net.contract.orders, page, n, stream)
              && (failed <==> env.down || n < |page|)
              && (env.down ==> n == 0 && db.View() == old(db.View()) && net.View() == old(net.View()))
              && (!env.down ==>
                    var h := Handled(chainWrites, old(db.View()), old(net.View()), page, stream, env.each);
                    && db.View() == h.0 && net.View() == h.1 && n == h.2
                    && (failed ==> Strikes(db.View(), page[n], env.each(n).fault)))
              && (page == [] ==> db.View() == old(db.View()) && net.View() == old(net.View()))
      ensures !failed && !env.cursorLost ==>
        Cursor(db.View(), stream) == PolledCursor(server.records, Cursor(old(db.View()), stream), limit)
      ensures !failed ==> world.watchers[name].caught == (n < limit)
      ensures chainWrites && (forall i: nat :: CleanCalls(env.each(i).write)) ==>
        Recorded(old(db.orders), old(net.contract.orders), db.orders, net.contract.orders,
          forall i: nat :: env.each(i).write.saved)
      ensures failed ==> env.down || exists i: nat :: env.each(i).fault != NoFault
      ensures world.watchers[name].attempts == old(world.watchers[name].attempts)
    {
      hide Reachable, Payments, Page, Recorded, CleanCalls, Handled, Strikes, Paged, Next, Enabled, SweepOver,
        PolledCursor;
      ghost var db0, chain0 := db.View(), net.View();
      ghost var next := NextPage(env.cursorLost);
      RecordedNothing(db.orders, net.contract.orders, forall i: nat :: env.each(i).write.saved);
      KnownRows(streams, world);
      PagedStart(db0, chain0.store, next, stream);
      var cursor := if env.cursorLost then 0 else Cursor(db.View(), stream);
      var r := server.FetchPayments(cursor, limit, env.down);
      if r.Err? {
        return 0, true;
      }
      var page := r.value;
      PolledTo(server.records, cursor, limit);
      PolledPage(streams, world, name, env.cursorLost);
      world := Next(world, Step.Poll(name, env.cursorLost));
      PageOutcomes(chainWrites, db0, chain0, page, stream, env.each);
      n, failed := HandlePage(page, env.each);
      PagedCursor(db0, chain0.store, db.View(), net.contract.orders, page, n, stream);
      if failed { NothingStrikes(db.View(), page[n], env.each(n).fault); }
    }

    /** The loop of pollOnce over the page it fetched. */
    method HandlePage(page: seq<Payment>, each: nat -> ProcessEnv) returns (n: nat, failed: bool)
      requires Valid() && world.watchers[name].page == page && world.watchers[name].read == None
      requires world.watchers[name].job == None && world.watchers[name].todo == []
      modifies this`world, db, net, net.contract
      ensures Valid() && Idle() && (!failed ==> world.watchers[name].caught == old(world.watchers[name].caught))
      ensures var h := Handled(chainWrites, old(db.View()), old(net.View()), page, stream, each);
              db.View() == h.0 && net.View() == h.1 && n == h.2
      ensures (failed <==> n < |page|) && (failed ==> Strikes(db.View(), page[n], each(n).fault))
      ensures Paged(old(db.View()), old(net.contract.orders), db.View(), net.contract.orders, page, n, stream)
      ensures world.watchers[name].attempts == old(world.watchers[name].attempts)
    {
      hide Reachable, CommitTx, Handled, Strikes, Processed, Paged, Later, OrdersGrow, Untold, SameButHashes, Recorded,
        CleanCalls, Seen;
      ghost var db0, chain0 := db.View(), net.View();
      PagedStart(db0, chain0.store, page, stream);
      HandledNothing(chainWrites, db0, chain0, page, stream, each);
      for i := 0 to |page|
        invariant Valid() && world.watchers[name].page == page[i..] && world.watchers[name].read == None
        invariant world.watchers[name].job == None && world.watchers[name].todo == []
        invariant world.watchers[name].caught == old(world.watchers[name].caught)
        invariant world.watchers[name].attempts == old(world.watchers[name].attempts)
        invariant var h := Handled(chainWrites, db0, chain0, page[..i], stream, each);
                  db.View() == h.0 && net.View() == h.1 && i == h.2
        invariant Paged(db0, chain0.store, db.View(), net.contract.orders, page, i, stream)
      {
        ghost var before, store := db.View(), net.contract.orders;
        var stopped := Process(page[i], each(i));
        if stopped {
          HandledStops(chainWrites, db0, chain0, page, stream, each, i);
          return i, true;
        }
        HandledNext(chainWrites, db0, chain0, page, stream, each, i);
        PagedNext(db0, chain0.store, before, store, db.View(), net.contract.orders, page, i, stream);
      }
      assert page[..|page|] == page;
      return |page|, false;
    }

    /**
     * syncChain: tries exactly the first five orders of the sweep query that are not exhausted, and counts
     * each outcome.
     */
    method SyncChain(env: SweepEnv) returns (ghost rows: seq<OrderIntent>, ghost tries: seq<Try>)
      requires Valid() && Idle() && world.watchers[name].caught
      modifies this`world, this`chainFailed, db, net, net.contract
      ensures Valid() && Idle() && IsSweepQuery(old(db.orders), rows)
      ensures TriedIds(tries) == if chainWrites && !env.lookupFails then Chosen(rows, old(chainFailed)) else []
      ensures (db.View(), net.View(), tries) ==
        if chainWrites && !env.lookupFails then
          Swept(old(db.View()), old(net.View()), rows, old(chainFailed), env.each)
        else old((db.View(), net.View(), []))
      ensures Tried(old(Now()), rows, tries, Now(), old(world.watchers[name].attempts), world.watchers[name].attempts)
      ensures (forall i: nat :: env.each(i).saved) ==>
        ValidTries(old(db.orders), old(chainFailed), tries) && db.orders == OrdersAfterAll(old(db.orders), tries)
      ensures db.evidence == old(db.evidence) && db.cursors == old(db.cursors)
      ensures chainWrites && !env.lookupFails && (forall i: nat :: CleanCalls(env.each(i)) && env.each(i).saved) ==>
        CleanSweep(old(Now()), rows, tries, Now())
    {
      hide OrdersGrow, Untold, Reachable, Later, CleanSweep, IsSweepQuery, Swept, Tried;
      NoSweep(Now(), world.watchers[name].attempts);
      KnownRows(streams, world);
      var found := db.SelectUnsynced();
      rows, tries := found, [];
      if !chainWrites || env.lookupFails {
        return;
      }
      ghost var step := Step.Sweep(name, found);
      Advance(streams, world, step);
      world := Next(world, step);
      tries := SweepRows(found, env.each);
      TriedBy(old(Now()), rows, tries, Now(), old(world.watchers[name].attempts), world.watchers[name].attempts);
    }

    /** The loop of syncChain over the rows it found. */
    method SweepRows(found: seq<OrderIntent>, each: nat -> WriteEnv) returns (ghost tries: seq<Try>)
      requires chainWrites && Valid() && Free() && IsSweepQuery(db.orders, found)
      requires world.watchers[name].todo == Ids(found) && world.watchers[name].done == 0
      modifies this`world, this`chainFailed, db`orders, net, net.contract
      ensures Valid() && Idle() && TriedIds(tries) == Chosen(found, old(chainFailed))
      ensures (db.View(), net.View(), tries) == Swept(old(db.View()), old(net.View()), found, old(chainFailed), each)
      ensures chainFailed == FailedAfterAll(old(chainFailed), tries)
      ensures (forall i: nat :: each(i).saved) ==>
        ValidTries(old(db.orders), old(chainFailed), tries) && db.orders == OrdersAfterAll(old(db.orders), tries)
      ensures db.evidence == old(db.evidence) && db.cursors == old(db.cursors)
      ensures OrdersGrow(old(db.orders), db.orders)
      ensures forall k :: old(Untold(db.orders, net.contract.orders, k)) ==> Untold(db.orders, net.contract.orders, k)
      ensures Later(old(db.orders), TriedIds(tries), db.orders)
      ensures forall k ::
        Count(world.watchers[name].attempts, k)
        == old(Count(world.watchers[name].attempts, k)) + if k in TriedIds(tries) then 1 else 0
      ensures (forall i: nat :: CleanCalls(each(i)) && each(i).saved) ==>
        CleanSweep(old(Now()), found, tries, Now())
    {
      hide Untold, Later, Spared, TriedIds, Outcomes, CleanCalls, CleanSweep, Reachable, Chosen, Awaits, OrdersGrow,
        SweepState, IsSweepQuery, Next, Enabled, Swept, Writes, FailedAfterAll, OrdersAfterAll, ValidTries, Healable,
        SameEntry, OrdersAfterTry, FinalIn;
      tries := [];
      ghost var db0, chain0 := db.View(), net.View();
      SweptNothing(db0, chain0, found, chainFailed, each);
      ghost var orders0, failed0 := db.orders, chainFailed;
      ghost var saved := forall i: nat :: each(i).saved;
      ghost var clean := forall i: nat :: CleanCalls(each(i));
      ghost var store0 := net.contract.orders;
      OutcomesStart(orders0, store0);
      ghost var counts0 := world.watchers[name].attempts;
      SparedStart(db0, store0, counts0);
      SweepStarts(orders0, failed0, found, saved);
      var done := 0;
      for i := 0 to |found|
        invariant Valid() && Free() && done == |tries| <= BATCH
        invariant world.watchers[name].todo == Ids(found)[i..] && world.watchers[name].done == done
        invariant SweepState(orders0, failed0, found, i, tries, db.orders, chainFailed, saved)
        invariant Spared(db0, store0, counts0, tries, db.View(), net.contract.orders, world.watchers[name].attempts)
        invariant (db.View(), net.View(), tries) == Swept(db0, chain0, found[..i], failed0, each)
        invariant clean ==> Outcomes(orders0, store0, tries, net.contract.orders)
      {
        var o := found[i];
        SweepRow(orders0, failed0, found, i, tries, db.orders, chainFailed, saved);
        assert Ids(found)[i..][0] == o.id && Ids(found)[i..][1..] == Ids(found)[i + 1..];
        if Count(chainFailed, o.id) >= MAX_ATTEMPTS {
          SweptNext(db0, chain0, found, failed0, each, i);
          PassedOver(streams, world, name);
          world := Next(world, Step.PassOver(name));
          continue;
        }
        if done >= BATCH {
          SweptFull(db0, chain0, found, failed0, each, i);
          SweepEnds(orders0, failed0, found, i, tries, db.orders, chainFailed, saved);
          SparedMeans(db0, store0, counts0, tries, db.View(), net.contract.orders, world.watchers[name].attempts);
          if clean && saved { CleanEnds(orders0, failed0, store0, found, tries, Now()); }
          return;
        }
        SweptNext(db0, chain0, found, failed0, each, i);
        done := done + 1;
        ghost var before, failed, store := db.orders, chainFailed, net.contract.orders;
        ghost var now, counts := db.View(), world.watchers[name].attempts;
        ghost var t := TryOne(o, each(i));
        SparedNext(db0, store0, counts0, tries, now, store, counts, t, each(i).saved, db.View(), net.contract.orders,
          world.watchers[name].attempts);
        if clean {
          OutcomesNext(orders0, store0, tries, store, o, t, net.contract.orders);
        }
        TriedNext(tries, t);
        AwaitsStay(before, t, each(i).saved);
        SweepTries(orders0, failed0, found, i, tries, before, failed, saved, t, db.orders);
        tries := tries + [t];
      }
      assert found[..|found|] == found;
      SweepEnds(orders0, failed0, found, |found|, tries, db.orders, chainFailed, saved);
      SparedMeans(db0, store0, counts0, tries, db.View(), net.contract.orders, world.watchers[name].attempts);
      if clean && saved { CleanEnds(orders0, failed0, store0, found, tries, Now()); }
    }

    /** One sweep attempt: writeChain, then forget or count. Only a hash that was saved changes the table. */
    method TryOne(o: OrderIntent, env: WriteEnv) returns (ghost t: Try)
      requires chainWrites && Valid() && Free() && Awaits(db.orders, o) && Count(chainFailed, o.id) < MAX_ATTEMPTS
      requires world.watchers[name].todo != [] && world.watchers[name].todo[0] == o.id
        && world.watchers[name].done < BATCH
      modifies this`world, this`chainFailed, db`orders, net, net.contract
      ensures Valid() && Free() && t.id == o.id && world.watchers[name].todo == old(world.watchers[name].todo)[1..]
      ensures world.watchers[name].done == old(world.watchers[name].done) + 1
      ensures chainFailed == FailedAfter(old(chainFailed), t)
      ensures db.orders == OrdersAfterTry(old(db.orders), if env.saved then t else Try(o.id, None))
      ensures db.evidence == old(db.evidence) && db.cursors == old(db.cursors)
      ensures OrdersGrow(old(db.orders), db.orders)
      ensures forall k :: old(Untold(db.orders, net.contract.orders, k)) ==> Untold(db.orders, net.contract.orders, k)
      ensures forall k ::
        Count(world.watchers[name].attempts, k)
        == old(Count(world.watchers[name].attempts, k)) + if k == o.id then 1 else 0
      ensures (db.View(), net.View(), t.ack) == Writes(true, old(db.View()), old(net.View()), o.id, env)
      ensures CleanCalls(env) ==>
        (t.ack.Some? <==> Healable(old(net.contract.orders), o.id, o.buyerWallet))
      ensures CleanCalls(env) ==> forall k :: k != o.id ==> SameEntry(old(net.contract.orders), net.contract.orders, k)
    {
      hide SameEntry, Reachable, OrdersGrow, Awaits, FreshAck, Untold, FinalIn, Healable, CleanCalls, WithHash, Writes,
        OrdersAfterTry, Next, Enabled, Written, Judged, SweepOver, LedgerOk;
      AwaitsMeans(db.orders, o);
      TakeUp(streams, world, name);
      world := Next(world, Step.TryNext(name));
      ghost var taken := world;
      var ok, tx := WriteChain(o, o.status, o.rejectReason, env);
      t := Try(o.id, if ok then Some(tx) else None);
      WrittenIs(taken, name, t.ack, net.View());
      Tally(o.id, ok, env.saved, t);
    }

    /** The counter of the order just tried: gone after a success, one up after a failure. */
    method Tally(id: string, ok: bool, saved: bool, ghost t: Try)
      requires t.id == id && (ok <==> t.ack.Some?) && net.Valid() && Reachable(streams, world) && Writing(world, name)
      requires world.watchers[name].job.value == Job(id, CALLS, true) && world.watchers[name].wait == t.ack
      requires t.ack.Some? ==> FreshAck(world, t.ack.value) && world.chain.succeeded[t.ack.value].id == id
      requires world.raw == server.records && world.chain == net.View() && id in world.db.orders
      requires db.View() == if t.ack.Some? && saved then WithHash(world.db, id, t.ack.value) else world.db
      requires world.watchers[name].failed == chainFailed && world.watchers[name].stream == stream
      modifies this`world, this`chainFailed
      ensures Valid() && chainFailed == FailedAfter(old(chainFailed), t)
      ensures db.orders == OrdersAfterTry(old(world).db.orders, if saved then t else Try(id, None))
      ensures OrdersGrow(old(world).db.orders, db.orders)
      ensures var l, m := old(world).watchers[name], world.watchers[name];
              && m == l.(job := None, wait := None, failed := m.failed, attempts := m.attempts, acks := m.acks)
              && forall k :: Count(m.attempts, k) == Count(l.attempts, k) + if k == id then 1 else 0
    {
      hide Reachable, OrdersGrow, FreshAck, WithHash, OrdersAfterTry, Next, Enabled;
      TriedStep(streams, world, name, t, saved);
      world := Next(world, Step.Attempt(name, t.ack, saved));
      if ok {
        chainFailed := chainFailed - {id};
      } else {
        chainFailed := chainFailed[id := (if id in chainFailed then chainFailed[id] else 0) + 1];
      }
    }

    /** The world goes on: the ledger records, and orders are placed; one whose id is taken is refused by the key. */
    method Meanwhile(records: seq<Record>, requests: seq<Request>)
      requires Valid() && LedgerOk(server.records + records)
      modifies this`world, server, db`orders
      ensures Valid() && world.watchers == old(world.watchers) && server.records == old(server.records) + records
      ensures db.View() == old(db.View()).(orders := PlacedOrders(old(db.orders), requests))
      ensures OnlyOpened(old(db.orders), db.orders)
    {
      hide Reachable, LedgerOk, OpeningRow, OnlyOpened, NewOrder, Next, Enabled;
      OpenedSame(db.orders);
      server.Grow(records);
      RecordsStep(streams, world, records);
      world := world.(raw := server.records);
      for i := 0 to |requests|
        invariant Valid() && world.watchers == old(world.watchers) && server.records == old(server.records) + records
        invariant OnlyOpened(old(db.orders), db.orders)
        invariant db.View() == old(db.View()).(orders := PlacedOrders(old(db.orders), requests[..i]))
      {
        var q := requests[i];
        assert requests[..i + 1][..i] == requests[..i];
        if q.id !in db.orders {
          var r := db.CreateOrder(q.config, q.id, q.productRef, q.amount, q.buyer, q.now);
          if r.Ok? {
            NewOrderOpens(q.config, q.id, q.productRef, q.amount, q.buyer, q.now);
            OpenedNext(old(db.orders), world.db.orders, r.value.0);
            OpenedStep(streams, world, r.value.0);
            world := Next(world, Step.Create(r.value.0));
          }
        }
      }
      assert requests[..|requests|] == requests;
    }

    ghost function Here(): Point
      reads this, server, db, net, net.contract
      requires name in world.watchers
    {
      Point(server.records, db.View(), net.View(), chainFailed, world.watchers[name].attempts)
    }

    /** One round of Start: poll, and sweep if the poll saw fewer payments than a page holds. */
    method OneRound(r: Round) returns (ghost rows: seq<OrderIntent>, ghost tries: seq<Try>)
      requires Valid() && Idle() && LedgerOk(server.records + r.records)
      modifies this`world, this`chainFailed, server, db, net, net.contract
      ensures Valid() && Idle() && server.records == old(server.records) + r.records
      ensures RoundStep(chainWrites, stream, limit, old(Here()), r, Here(), rows, tries)
      ensures var page := Payments(Page(server.records, if r.poll.cursorLost then 0 else Cursor(old(db.View()), stream),
                limit));
              && (chainWrites && !r.sweep.lookupFails && FaultFree(r.poll) && |page| < limit ==>
                    TriedIds(tries) == Chosen(rows, old(chainFailed)))
              && (!chainWrites || |page| >= limit ==> tries == [])
      ensures forall id ::
        Count(world.watchers[name].attempts, id)
        == old(Count(world.watchers[name].attempts, id)) + if id in TriedIds(tries) then 1 else 0
      ensures Kept(old(Now()), old(world.watchers[name].attempts), Now(), world.watchers[name].attempts)
      ensures old(db.evidence) <= db.evidence
      ensures Quiet(r) ==>
        Cursor(db.View(), stream) == PolledCursor(server.records, Cursor(old(db.View()), stream), limit)
      ensures Calm(r) && chainWrites && Pending(server.records, Cursor(old(db.View()), stream)) == 0 ==>
        forall stuck: set<string>, total: int, i: int :: |stuck| < WINDOW && Mending(stuck, total, i, old(Now())) ==>
          Mending(stuck, total, i + 1, Now())
    {
      hide Reachable, PolledCursor, Pending, Payments, Page, OnlyOpened, Mending, CleanSweep, LedgerOk, CleanCalls,
        IsSweepQuery, Chosen, Swept, RoundStep, Kept, Calm, Quiet, TriedIds, Tried, PollKeeps, FaultFree, Heard,
        PollFails;
      ghost var start, at := Now(), Here();
      ghost var calm := Calm(r) && chainWrites && Pending(server.records + r.records, Cursor(db.View(), stream)) == 0;
      RoundMeans(r);
      var n, failed := Listen(r);
      ghost var polled, heard := Now(), Here();
      rows, tries := [], [];
      NoSweep(polled, at.attempts);
      if !failed && n < limit {
        rows, tries := SyncChain(r.sweep);
      }
      RoundIs(chainWrites, stream, limit, at, r, heard, n, failed, Here(), rows, tries);
      RoundSweeps(chainWrites, stream, limit, at, r, Here(), rows, tries);
      KeptRound(start, polled, rows, tries, Now(), at.attempts, Here().attempts);
      if calm { MendingRound(start, polled, rows, tries, Now()); }
    }

    /** The first half of a round: what arrives before it, and its poll. */
    method Listen(r: Round) returns (n: nat, failed: bool)
      requires Valid() && Idle() && LedgerOk(server.records + r.records)
      modifies this`world, server, db, net, net.contract
      ensures Valid() && Idle() && server.records == old(server.records) + r.records
      ensures world.watchers[name].attempts == old(world.watchers[name].attempts)
      ensures !failed ==> world.watchers[name].caught == (n < limit)
      ensures (db.View(), net.View(), n) == Heard(chainWrites, stream, limit, old(Here()), r)
      ensures failed <==> PollFails(chainWrites, stream, limit, old(Here()), r)
      ensures PollKeeps(old(Now()), Now()) && old(db.evidence) <= db.evidence
      ensures Quiet(r) ==>
        !failed && Cursor(db.View(), stream) == PolledCursor(server.records, Cursor(old(db.View()), stream), limit)
      ensures Quiet(r) && Pending(server.records, Cursor(old(db.View()), stream)) == 0 ==>
        n == 0 && OnlyOpened(old(db.orders), db.orders) && net.View() == old(net.View())
    {
      hide Reachable, PolledCursor, Pending, Payments, Page, OnlyOpened, LedgerOk, CleanCalls, Handled, Paged, Recorded,
        PlacedOrders, Strikes, Quiet, PollKeeps;
      ghost var start := Now();
      RoundMeans(r);
      Meanwhile(r.records, r.requests);
      ghost var db1, next := db.View(), NextPage(r.poll.cursorLost);
      if Pending(server.records, Cursor(db1, stream)) == 0 {
        NothingPending(server.records, Cursor(db1, stream), limit);
      }
      n, failed := PollOnce(r.poll);
      PollKept(start, db1, db.View(), Now(), next, n, stream);
    }

    /**
     * Start: polls until told to stop, sweeping whenever a poll saw fewer payments than a page holds, while the
     * ledger grows and orders are placed. Whatever happens, no committed verdict is rewritten, no order is tried more
     * than six times, no lost hash comes back, and an order behind twenty exhausted elders is not tried at all; the
     * only watcher there is has taken every payment up to some point of the ledger, in order and once. If nothing goes
     * wrong with the polls, nothing more arrives, no gap lies ahead and there are enough rounds, that is all of the
     * ledger. If nothing goes wrong at all, it has been taken, fewer than twenty orders are stuck and there are enough
     * rounds, every other order ends up on chain with its hash.
     */
    method Start(rounds: seq<Round>) returns (ghost course: seq<Point>)
      requires Valid() && Idle() && LedgerOk(server.records + Arriving(rounds))
      modifies this`world, this`chainFailed, server, db, net, net.contract
      ensures Valid() && Idle() && server.records == old(server.records) + Arriving(rounds)
      ensures Course(chainWrites, stream, limit, rounds, course) && course[0] == old(Here())
        && course[|rounds|] == Here()
      ensures Kept(old(Now()), old(world.watchers[name].attempts), Now(), world.watchers[name].attempts)
      ensures old(db.evidence) <= db.evidence
      ensures forall id :: Count(world.watchers[name].attempts, id) <= 6
      ensures streams == map[name := stream] ==> Ingestion.OnePass(server.records, db.View())
      ensures Undisturbed(rounds) ==>
        Cursor(db.View(), stream) == PolledTimes(server.records, Cursor(old(db.View()), stream), limit, |rounds|)
      ensures streams == map[name := stream] && Undisturbed(rounds)
              && !GapAhead(server.records, Cursor(old(db.View()), stream), limit)
              && |rounds| >= Pending(server.records, Cursor(old(db.View()), stream)) ==>
        |db.evidence| == |Payments(server.records)|
      ensures AllCalm(rounds) && chainWrites
              && Pending(server.records, Cursor(old(db.View()), stream)) == 0
              && |old(Stuck(Now()))| < WINDOW && |rounds| >= old(Potential(db.orders, chainFailed)) ==>
        forall id :: Unsynced(db.orders, id) ==> id in old(Stuck(Now()))
    {
      hide Kept, Reachable, Ingestion.OnePass, PolledCursor, Pending, GapAhead, Payments, LedgerOk, Mending,
        Calm, Quiet, Undisturbed, AllCalm, Potential, StuckIds, Unsynced, Arriving, PolledTimes, Cursor, Course,
        RoundStep;
      course := [Here()];
      CourseStart(chainWrites, stream, limit, rounds, Here());
      ghost var from, still := Cursor(db.View(), stream), Undisturbed(rounds);
      ghost var calm := AllCalm(rounds) && chainWrites && Pending(server.records, from) == 0;
      ghost var start := Now();
      ghost var total := Potential(start.orders, start.failed);
      ghost var few := |Stuck(start)| < WINDOW;
      ghost var attempts := world.watchers[name].attempts;
      KeptSame(start, attempts);
      MendingStart(start);
      RoundsOf(rounds);
      assert rounds[0..] == rounds;
      ArrivedAll(rounds);
      for i := 0 to |rounds|
        invariant Valid() && Idle() && LedgerOk(server.records + Arriving(rounds[i..]))
        invariant server.records + Arriving(rounds[i..]) == old(server.records) + Arriving(rounds)
        invariant Course(chainWrites, stream, limit, rounds[..i], course) && |course| == i + 1
        invariant course[0] == old(Here()) && course[i] == Here()
        invariant Kept(start, attempts, Now(), world.watchers[name].attempts) && old(db.evidence) <= db.evidence
        invariant still ==> server.records == old(server.records)
                            && PolledTimes(server.records, Cursor(db.View(), stream), limit, |rounds| - i)
                               == PolledTimes(server.records, from, limit, |rounds|)
        invariant calm ==> Pending(server.records, Cursor(db.View(), stream)) == 0 && (few ==>
          Mending(Stuck(start), total, i, Now()))
      {
        ghost var before, counts := Now(), world.watchers[name].attempts;
        ArrivingNext(server.records, rounds, i);
        PollsLeft(server.records, Cursor(db.View(), stream), limit, |rounds| - i);
        if calm {
          NothingPending(server.records, Cursor(db.View(), stream), limit);
        }
        ghost var rows, tries := OneRound(rounds[i]);
        CourseNext(chainWrites, stream, limit, rounds, i, course, Here(), rows, tries);
        course := course + [Here()];
        KeptThen(start, attempts, before, counts, Now(), world.watchers[name].attempts);
      }
      assert rounds[..|rounds|] == rounds;
      RetryBounds(streams, world, name);
      PollsLeft(server.records, Cursor(db.View(), stream), limit, 0);
      if streams == map[name := stream] {
        SoleWatcher(name, stream, world, from, limit, |rounds|);
      }
      if calm && few && |rounds| >= total {
        MendingDone(Stuck(start), total, |rounds|, Now());
      }
    }
  }

  /** A first start: an empty ledger, empty tables, a contract just deployed, and the one watcher. */
  method Boot(name: string, stream: string, chainWrites: bool, operator: string) returns (p: Process)
    ensures fresh(p) && fresh(p.db) && fresh(p.server) && fresh(p.net) && fresh(p.net.contract)
    ensures p.Valid() && p.Idle() && p.streams == map[name := stream] && p.name == name && p.stream == stream
    ensures p.chainWrites == chainWrites && p.net.operator == operator
    ensures p.server.records == [] && p.db.View() == EMPTY_DB && p.net.View() == EMPTY_CHAIN && p.chainFailed == map[]
  {
    var contract := new Contract.OrderStatusContract(operator);
    var net := new Network(operator, contract);
    var db := new Tables();
    var server := new Server();
    ReachInit(map[name := stream]);
    p := new Process(name, stream, chainWrites, db, server, net, map[name := stream], Init(map[name := stream]));
  }

  // --- Facts the methods use ------------------------------------------------------------------

  lemma {:induction false} JudgedRow(s: State, id: string)
    requires Inv(s) && id in s.db.orders && OrderFinal(s.db.orders[id].status)
    ensures Judged(s.db.orders[id]) && s.db.orders[id].id == id
    ensures forall c :: (c == DetectCall(id) || c == VerdictCall(s.db.orders[id])) ==> Permitted(s.db.orders, c)
  {
    hide EvidenceOk, SettledOk, LocalOk, StoreOk, CallsOk, OnceOk, HashOk, CountersOk;
    assert RowOk(id, s.db.orders[id]);
  }

  lemma {:induction false} SameCalls(a: OrderIntent, b: OrderIntent)
    requires Opening(a) == Opening(b)
    ensures OpenCall(a) == OpenCall(b) && a.id == b.id && a.buyerWallet == b.buyerWallet
  {
    var x, y := Opening(a), Opening(b);
    assert x.buyerWallet == y.buyerWallet && x.expectedAmount == y.expectedAmount && x.assetCode == y.assetCode
           && x.memo == y.memo && x.id == y.id;
  }

  lemma {:induction false} AsOpenCall(o: OrderIntent, stroops: int)
    requires stroops == ChainStroops(o.expectedAmount)
    ensures OpenCall(o) == Contract.CreateCall(o.id, o.buyerWallet, stroops, o.assetCode, Contract.Sha256(o.memo))
  {}

  lemma {:induction false} OpenPermitted(orders: Orders, id: string)
    requires id in orders && Judged(orders[id]) && orders[id].id == id && Strkey.Decodes(orders[id].buyerWallet)
    ensures Permitted(orders, OpenCall(orders[id]))
  {}

  /** A success told to this caller was not acknowledged before, and its order has no hash yet. */
  lemma {:induction false} AckIsFresh(streams: map<string, string>, before: State, now: State, id: string, tx: TxHash)
    requires Reachable(streams, before) && now.db == before.db && now.acked == before.acked
    requires id in now.db.orders && Judged(now.db.orders[id]) && now.db.orders[id].id == id
    requires tx >= before.chain.next && tx in now.chain.succeeded
      && now.chain.succeeded[tx] == VerdictCall(now.db.orders[id])
    ensures FreshAck(now, tx) && now.chain.succeeded[tx].id == id
  {
    hide Inv, Reachable;
    ReachableSafe(streams, before);
    AckedIsOld(before);
  }

  lemma {:induction false} AckedIsOld(s: State)
    requires Inv(s)
    ensures forall t :: t in s.acked ==> t < s.chain.next
  {
    hide EvidenceOk, SettledOk, LocalOk, StoreOk, OnceOk, CountersOk, RowOk, Permitted;
    assert forall t :: t in s.acked ==> t in s.chain.succeeded;
  }

  /** An acknowledged verdict is what the chain holds. */
  lemma {:induction false} AckOnChain(streams: map<string, string>, s: State, id: string, tx: TxHash)
    requires Reachable(streams, s) && FreshAck(s, tx) && s.chain.succeeded[tx].id == id
    ensures id in s.chain.store && Judged(s.db.orders[id])
    ensures s.chain.store[id].status == ChainStatus(s.db.orders[id].status, s.db.orders[id].rejectReason)
  {
    ReachableSafe(streams, s);
    hide EvidenceOk, SettledOk, LocalOk, StoreOk, CallsOk, CountersOk, RowOk;
    assert Finalizes(s.chain.succeeded[tx]);
  }

  /** One of these payments is operation op. */
  ghost predicate Among(ps: seq<Payment>, op: string) { exists i :: 0 <= i < |ps| && ps[i].id == op }

  lemma {:induction false} AmongNone(page: seq<Payment>)
    ensures forall op :: !Among(page[..0], op)
  {}

  lemma {:induction false} AmongNext(page: seq<Payment>, n: nat)
    requires n < |page|
    ensures forall op :: Among(page[..n + 1], op) <==> Among(page[..n], op) || page[n].id == op
  {
    var now, next := page[..n], page[..n + 1];
    forall op ensures Among(next, op) <==> Among(now, op) || page[n].id == op {
      assert next == now + [page[n]];
      if Among(now, op) {
        var i :| 0 <= i < n && now[i].id == op;
        assert next[i].id == op;
      }
      if page[n].id == op {
        assert next[n].id == op;
      }
      if Among(next, op) && page[n].id != op {
        var i :| 0 <= i < |next| && next[i].id == op;
        assert now[i].id == op;
      }
    }
  }

  /**
   * From one table and registry to the next over the first n payments of a page: evidence of exactly those was
   * added, the cursor is on the last of them, nothing settled was rewritten, and no lost hash came back.
   */
  ghost predicate Paged(a: Db, s: Contract.Store, b: Db, t: Contract.Store, page: seq<Payment>, n: nat,
    stream: string)
  {
    && n <= |page|
    && (forall op :: Seen(b.evidence, op) <==> Seen(a.evidence, op) || Among(page[..n], op))
    && Cursor(b, stream) == (if n == 0 then Cursor(a, stream) else page[n - 1].token)
    && OrdersGrow(a.orders, b.orders) && a.evidence <= b.evidence
    && (forall k :: Untold(a.orders, s, k) ==> Untold(b.orders, t, k))
    && Later(a.orders, [], b.orders)
  }

  lemma {:induction false} PagedStart(a: Db, s: Contract.Store, page: seq<Payment>, stream: string)
    ensures Paged(a, s, a, s, page, 0, stream)
  {
    hide Untold, Later, Seen, OrdersGrow, Among;
    GrowReflexive(a.orders);
    LaterSame(a.orders);
    AmongNone(page);
  }

  lemma {:induction false} PagedNext(a: Db, s: Contract.Store, b: Db, t: Contract.Store, c: Db, u: Contract.Store,
    page: seq<Payment>, n: nat, stream: string)
    requires n < |page| && Paged(a, s, b, t, page, n, stream)
    requires SameButHashes(c, CommitTx(b, page[n], FindByMemo(b.orders, page[n].memo), stream))
    requires OrdersGrow(b.orders, c.orders) && b.evidence <= c.evidence && Later(b.orders, [], c.orders)
    requires forall k :: Untold(b.orders, t, k) ==> Untold(c.orders, u, k)
    ensures Paged(a, s, c, u, page, n + 1, stream)
  {
    hide Untold, Later, Seen, OrdersGrow, SameButHashes, CommitTx, FindByMemo, Among, Cursor;
    AmongNext(page, n);
    GrowTransitive(a.orders, b.orders, c.orders);
    LaterThen(a.orders, b.orders, [], c.orders);
    CommitSees(b, c, page[n], FindByMemo(b.orders, page[n].memo), stream);
  }

  lemma {:induction false} PagedCursor(a: Db, s: Contract.Store, b: Db, t: Contract.Store, page: seq<Payment>, n: nat,
    stream: string)
    requires Paged(a, s, b, t, page, n, stream)
    ensures n <= |page| && Cursor(b, stream) == if n == 0 then Cursor(a, stream) else page[n - 1].token
  {}

  lemma {:induction false} PagedMeans(a: Db, s: Contract.Store, b: Db, t: Contract.Store, page: seq<Payment>, n: nat,
    stream: string)
    requires Paged(a, s, b, t, page, n, stream)
    ensures n <= |page| && forall op :: Seen(b.evidence, op) <==> Seen(a.evidence, op) || Among(page[..n], op)
    ensures Cursor(b, stream) == if n == 0 then Cursor(a, stream) else page[n - 1].token
    ensures OrdersGrow(a.orders, b.orders) && a.evidence <= b.evidence && Later(a.orders, [], b.orders)
    ensures forall k :: Untold(a.orders, s, k) ==> Untold(b.orders, t, k)
  {}

  /**
   * Tries change hashes only, bring no lost one back, make no settled order wait again, and each uses up one attempt
   * of its order and none of any other.
   */
  ghost predicate Spared(a: Db, s: Contract.Store, counts: map<string, nat>, tries: seq<Try>, b: Db,
    t: Contract.Store, now: map<string, nat>)
  {
    && b.evidence == a.evidence && b.cursors == a.cursors && OrdersGrow(a.orders, b.orders)
    && (forall k :: Untold(a.orders, s, k) ==> Untold(b.orders, t, k))
    && Later(a.orders, TriedIds(tries), b.orders)
    && forall k :: Count(now, k) == Count(counts, k) + if k in TriedIds(tries) then 1 else 0
  }

  lemma {:induction false} SparedStart(a: Db, s: Contract.Store, counts: map<string, nat>)
    ensures Spared(a, s, counts, [], a, s, counts)
  {
    hide Untold, OrdersGrow;
    GrowReflexive(a.orders);
    LaterSame(a.orders);
  }

  lemma {:induction false} SparedNext(a: Db, s: Contract.Store, counts: map<string, nat>, tries: seq<Try>, b: Db,
    t: Contract.Store, now: map<string, nat>, one: Try, saved: bool, c: Db, u: Contract.Store, after: map<string, nat>)
    requires Spared(a, s, counts, tries, b, t, now) && one.id !in TriedIds(tries)
    requires c.evidence == b.evidence && c.cursors == b.cursors && OrdersGrow(b.orders, c.orders)
    requires c.orders == OrdersAfterTry(b.orders, if saved then one else Try(one.id, None))
    requires forall k :: Untold(b.orders, t, k) ==> Untold(c.orders, u, k)
    requires forall k :: Count(after, k) == Count(now, k) + if k == one.id then 1 else 0
    ensures Spared(a, s, counts, tries + [one], c, u, after)
  {
    hide Untold, OrdersGrow, Later, TriedIds, OrdersAfterTry, Count;
    GrowTransitive(a.orders, b.orders, c.orders);
    LaterTry(a.orders, tries, b.orders, one, saved);
    TriedNext(tries, one);
  }

  lemma {:induction false} SparedMeans(a: Db, s: Contract.Store, counts: map<string, nat>, tries: seq<Try>, b: Db,
    t: Contract.Store, now: map<string, nat>)
    requires Spared(a, s, counts, tries, b, t, now)
    ensures b.evidence == a.evidence && b.cursors == a.cursors && OrdersGrow(a.orders, b.orders)
    ensures forall k :: Untold(a.orders, s, k) ==> Untold(b.orders, t, k)
    ensures Later(a.orders, TriedIds(tries), b.orders)
    ensures forall k :: Count(now, k) == Count(counts, k) + if k in TriedIds(tries) then 1 else 0
  {}

  lemma {:induction false} EntriesSame(store: Contract.Store)
    ensures forall k :: SameEntry(store, store, k)
  {}

  /** A saved hash, or none, leaves every other order waiting that was. */
  lemma {:induction false} HashLater(db: Db, id: string, tx: TxHash)
    requires id in db.orders
    ensures Later(db.orders, [id], WithHash(db, id, tx).orders) && Later(db.orders, [id], db.orders)
  {}

  /** What SaveHash does to a world that was just told of tx. */
  lemma {:induction false} SaveStep(streams: map<string, string>, s: State, w: string, saved: bool, tx: TxHash)
    requires Reachable(streams, s) && Writing(s, w) && !s.watchers[w].job.value.retry
      && s.watchers[w].wait == Some(tx) && FreshAck(s, tx)
    ensures var step := Step.SaveHash(w, saved);
            Enabled(s, step) &&
            var n := Next(s, step);
            && n.raw == s.raw && n.chain == s.chain && w in n.watchers && n.watchers == At(s, w, None, None).watchers
            && n.db == if saved then WithHash(s.db, s.chain.succeeded[tx].id, tx) else s.db
  {
    hide IsVerdictCall;
  }

  lemma {:induction false} WriteEnds(s: State, w: string)
    requires Writing(s, w) && !s.watchers[w].job.value.retry && s.watchers[w].wait == None
    requires s.watchers[w].job.value.stage == 0 || s.watchers[w].job.value.stage == CALLS
    ensures Enabled(s, Step.EndWrite(w)) && Next(s, Step.EndWrite(w)) == At(s, w, None, None)
  {}

  /** At the start of a write of this order. */
  ghost predicate AtStart(s: State, w: string, id: string) {
    Writing(s, w) && s.watchers[w].job.value.id == id && s.watchers[w].job.value.stage == 0
  }

  /** After a write: all three calls made or missed, unless the process writes nothing to the chain. */
  ghost function Written(s: State, w: string, calls: bool, wait: Option<TxHash>): State
    requires Writing(s, w)
  {
    if calls then At(s, w, Some(s.watchers[w].job.value.(stage := CALLS)), wait) else s
  }

  lemma {:induction false} AdvancedIs(s: State, w: string, c: Chain)
    requires Writing(s, w)
    ensures var t, job := Advanced(s, w, None).(chain := c), s.watchers[w].job.value;
            && t.db == s.db && t.raw == s.raw && t.acked == s.acked && Writing(t, w) && t.watchers[w].wait == None
            && t.watchers[w].job.value == job.(stage := job.stage + 1)
  {}

  /** What a write leaves of its watcher. */
  lemma {:induction false} WrittenIs(s: State, w: string, wait: Option<TxHash>, c: Chain)
    requires Writing(s, w)
    ensures var t, l := Written(s, w, true, wait).(chain := c), s.watchers[w];
            && t.db == s.db && t.raw == s.raw && t.acked == s.acked && w in t.watchers
            && t.watchers[w] == l.(job := Some(l.job.value.(stage := CALLS)), wait := wait)
  {}

  /** One call after the other makes a whole write. */
  lemma {:induction false} ThreeCalls(s: State, w: string, a: Chain, b: Chain, c: Chain, r: Result<TxHash, InvokeError>)
    requires Writing(s, w) && s.watchers[w].job.value.stage == 0
    ensures var t := Advanced(s, w, None).(chain := a);
            Writing(t, w) && Writing(Advanced(t, w, None).(chain := b), w)
            && Told(Advanced(t, w, None).(chain := b), c, w, r)
               == Written(s, w, true, if r.Ok? then Some(r.value) else None).(chain := c)
  {}

  lemma {:induction false} CommitLater(db: Db, p: Payment, copy: Option<OrderIntent>, stream: string)
    ensures Later(db.orders, [], CommitTx(db, p, copy, stream).orders)
  {
    hide Match;
  }

  /** The order a commit settles was not waiting before it. */
  lemma {:induction false} SettledLater(db: Db, p: Payment, copy: Option<OrderIntent>, stream: string, after: Orders)
    requires Settles(db.orders, p, copy)
    requires Later(CommitTx(db, p, copy, stream).orders, [copy.value.id], after)
    ensures Later(db.orders, [], after)
  {
    CommitLater(db, p, copy, stream);
    hide CommitTx;
  }

  /** The tries so far went as their entries allowed, and left all others' entries alone. */
  ghost predicate Outcomes(orders0: Orders, store0: Contract.Store, tries: seq<Try>, store: Contract.Store) {
    && (forall j :: 0 <= j < |tries| ==>
          tries[j].id in orders0
            && (tries[j].ack.Some? <==> Healable(store0, tries[j].id, orders0[tries[j].id].buyerWallet)))
    && (forall id :: id !in TriedIds(tries) ==> SameEntry(store0, store, id))
  }

  lemma {:induction false} OutcomesStart(orders0: Orders, store0: Contract.Store)
    ensures Outcomes(orders0, store0, [], store0)
  {}

  lemma {:induction false} TriedNext(tries: seq<Try>, t: Try)
    ensures TriedIds(tries + [t]) == TriedIds(tries) + [t.id]
  {}

  lemma {:induction false} OutcomesNext(orders0: Orders, store0: Contract.Store, tries: seq<Try>, store: Contract.Store,
                                        o: OrderIntent, t: Try, after: Contract.Store)
    requires Outcomes(orders0, store0, tries, store) && t.id == o.id && o.id !in TriedIds(tries)
    requires o.id in orders0 && orders0[o.id] == o
    requires t.ack.Some? <==> Healable(store, o.id, o.buyerWallet)
    requires forall k :: k != o.id ==> SameEntry(store, after, k)
    ensures Outcomes(orders0, store0, tries + [t], after)
  {
    hide TriedIds, Strkey.Decodes;
    TriedNext(tries, t);
    assert SameEntry(store0, store, o.id);
    forall id | id !in TriedIds(tries + [t]) ensures SameEntry(store0, after, id) {
      assert SameEntry(store0, store, id) && SameEntry(store, after, id);
    }
  }

  lemma {:induction false} CleanEnds(orders0: Orders, failed0: map<string, nat>, store0: Contract.Store,
    found: seq<OrderIntent>,
                                     tries: seq<Try>, now: Scene)
    requires IsSweepQuery(orders0, found) && TriedIds(tries) == Chosen(found, failed0)
    requires now.orders == OrdersAfterAll(orders0, tries) && now.failed == FailedAfterAll(failed0, tries)
    requires Outcomes(orders0, store0, tries, now.store)
    ensures CleanSweep(Scene(orders0, failed0, store0), found, tries, now)
  {
    hide IsSweepQuery, Chosen, OrdersAfterAll, FailedAfterAll, Healable, SameEntry, TriedIds;
  }

  /** Placed orders and one clean sweep, for every count that is being kept. */
  lemma {:induction false} MendingRound(a: Scene, b: Scene, rows: seq<OrderIntent>, tries: seq<Try>, c: Scene)
    requires OnlyOpened(a.orders, b.orders) && a.failed == b.failed && a.store == b.store
      && CleanSweep(b, rows, tries, c)
    ensures forall stuck: set<string>, total: int, i: int :: |stuck| < WINDOW && Mending(stuck, total, i, a) ==>
      Mending(stuck, total, i + 1, c)
  {
    hide CleanSweep, Mending;
    forall stuck: set<string>, total: int, i: int | |stuck| < WINDOW && Mending(stuck, total, i, a)
      ensures Mending(stuck, total, i + 1, c)
    {
      OpenedLater(a.orders, b.orders);
      MendingKept(stuck, total, i, a, b);
      MendingStep(stuck, total, i, b, rows, tries, c);
    }
  }

  ghost function Stuck(now: Scene): set<string> { StuckIds(now.orders, now.failed, now.store) }

  lemma {:induction false} MendingStart(now: Scene)
    ensures Mending(Stuck(now), Potential(now.orders, now.failed), 0, now)
  {}

  lemma {:induction false} CourseStart(on: bool, stream: string, limit: nat, rounds: seq<Round>, a: Point)
    ensures Course(on, stream, limit, rounds[..0], [a])
  {}

  lemma {:induction false} CourseNext(on: bool, stream: string, limit: nat, rounds: seq<Round>, n: nat,
    course: seq<Point>, b: Point, rows: seq<OrderIntent>, tries: seq<Try>)
    requires n < |rounds| && Course(on, stream, limit, rounds[..n], course)
    requires RoundStep(on, stream, limit, course[n], rounds[n], b, rows, tries)
    ensures Course(on, stream, limit, rounds[..n + 1], course + [b])
  {
    hide RoundStep;
    var next := course + [b];
    assert RoundOf(on, stream, limit, next[n], rounds[n], next[n + 1]);
    forall i | 0 <= i < n + 1 ensures RoundOf(on, stream, limit, next[i], rounds[..n + 1][i], next[i + 1]) {
      if i < n {
        assert rounds[..n][i] == rounds[..n + 1][i];
        assert RoundOf(on, stream, limit, course[i], rounds[..n][i], course[i + 1]);
      }
    }
  }

  lemma {:induction false} RoundsOf(rounds: seq<Round>)
    ensures AllCalm(rounds) ==> Undisturbed(rounds)
    ensures Undisturbed(rounds) ==> forall i :: 0 <= i < |rounds| ==> Quiet(rounds[i]) && rounds[i].records == []
    ensures AllCalm(rounds) ==> forall i :: 0 <= i < |rounds| ==> Calm(rounds[i])
  {}

  lemma {:induction false} KeptSame(a: Scene, attempts: map<string, nat>)
    ensures Kept(a, attempts, a, attempts)
  {}

  lemma {:induction false} KeptThen(a: Scene, ta: map<string, nat>, b: Scene, tb: map<string, nat>, c: Scene,
    tc: map<string, nat>)
    requires Kept(a, ta, b, tb) && Kept(b, tb, c, tc)
    ensures Kept(a, ta, c, tc)
  {
    hide Untold, Blocked, OrdersGrow;
    GrowTransitive(a.orders, b.orders, c.orders);
  }

  lemma {:induction false} PollsLeft(raw: seq<Record>, cursor: nat, limit: nat, n: nat)
    ensures PolledTimes(raw, cursor, limit, n) ==
      if n == 0 then cursor else PolledTimes(raw, PolledCursor(raw, cursor, limit), limit, n - 1)
  {}

  lemma {:induction false} ArrivedAll(rounds: seq<Round>)
    ensures Arriving(rounds[|rounds|..]) == []
  {}

  /** What a round's records leave to arrive. */
  lemma {:induction false} ArrivingNext(raw: seq<Record>, rounds: seq<Round>, i: nat)
    requires i < |rounds|
    ensures raw + Arriving(rounds[i..]) == (raw + rounds[i].records) + Arriving(rounds[i + 1..])
    ensures LedgerOk(raw + Arriving(rounds[i..])) ==> LedgerOk(raw + rounds[i].records)
  {
    hide LedgerOk;
    assert rounds[i..][1..] == rounds[i + 1..];
    assert raw + Arriving(rounds[i..]) == (raw + rounds[i].records) + Arriving(rounds[i + 1..]);
    if LedgerOk(raw + Arriving(rounds[i..])) {
      LedgerPrefix(raw + rounds[i].records, Arriving(rounds[i + 1..]));
    }
  }

  lemma {:induction false} OpenedUntold(a: Orders, b: Orders, store: Contract.Store)
    requires OnlyOpened(a, b)
    ensures forall k :: Untold(a, store, k) ==> Untold(b, store, k)
  {}

  lemma {:induction false} BlockedLater(a: Orders, failed: map<string, nat>, b: Orders)
    requires Later(a, [], b)
    ensures forall id, elders :: Blocked(a, failed, id, elders) ==> Blocked(b, failed, id, elders)
  {
    forall id, elders | Blocked(a, failed, id, elders) ensures Blocked(b, failed, id, elders) {
      assert elders <= ExhaustedIds(b, failed);
    }
  }

  lemma {:induction false} BlockedSweep(a: Orders, failed: map<string, nat>, rows: seq<OrderIntent>, tries: seq<Try>,
    b: Orders)
    requires IsSweepQuery(a, rows) && (TriedIds(tries) == Chosen(rows, failed) || tries == [])
      && Later(a, TriedIds(tries), b)
    ensures forall id, elders :: Blocked(a, failed, id, elders) ==>
      Blocked(b, FailedAfterAll(failed, tries), id, elders) && id !in TriedIds(tries)
  {
    forall id, elders | Blocked(a, failed, id, elders)
      ensures Blocked(b, FailedAfterAll(failed, tries), id, elders) && id !in TriedIds(tries)
    {
      BlockedStays(a, failed, rows, tries, b, id, elders);
    }
  }

  lemma {:induction false} RetryBounds(streams: map<string, string>, s: State, w: string)
    requires Reachable(streams, s) && w in s.watchers
    ensures forall id :: Count(s.watchers[w].attempts, id) <= 6
  {
    forall id ensures Count(s.watchers[w].attempts, id) <= 6 { RetryBound(streams, s, w, id); }
  }

  /** A sole watcher's evidence, and all of it after enough polls from a cursor with no gap ahead. */
  lemma {:induction false} SoleWatcher(w: string, stream: string, s: State, from: nat, limit: nat, n: nat)
    requires Reachable(map[w := stream], s)
    ensures Ingestion.OnePass(s.raw, s.db)
    ensures limit > 0 && !GapAhead(s.raw, from, limit) && n >= Pending(s.raw, from)
            && Cursor(s.db, stream) == PolledTimes(s.raw, from, limit, n) ==>
      |s.db.evidence| == |Payments(s.raw)|
  {
    hide Reachable, GapAhead, Pending, PolledTimes, Payments, LedgerOk, Ingestion.OnePass;
    Ingestion.SoloOnePass(w, stream, s);
    if limit > 0 && !GapAhead(s.raw, from, limit) && n >= Pending(s.raw, from)
      && Cursor(s.db, stream) == PolledTimes(s.raw, from, limit, n) {
      Ingestion.SoloLedger(w, stream, s);
      EnoughPolls(s.raw, from, limit, n);
      Ingestion.CaughtUp(w, stream, s);
    }
  }

  /** From one table to the next, only orders awaiting payment were added. */
  ghost predicate OnlyOpened(a: Orders, b: Orders) {
    && (forall id :: id in a ==> id in b && b[id] == a[id])
    && (forall id :: id in b && id !in a ==> b[id].status == AwaitingPayment)
  }

  /**
   * An id is in the table after the requests exactly if it was there or one of them was accepted for it, and a row
   * that was there stays.
   */
  lemma {:induction false} PlacedRow(orders: Orders, requests: seq<Request>, id: string)
    ensures id in PlacedOrders(orders, requests) <==> id in orders || AcceptedFor(requests, id)
    ensures id in orders ==> PlacedOrders(orders, requests)[id] == orders[id]
  {
    hide Answer;
    if requests != [] {
      var n := |requests| - 1;
      PlacedRow(orders, requests[..n], id);
      AcceptedLast(requests, id);
    }
  }

  /** One of the requests was accepted for this id. */
  predicate AcceptedFor(requests: seq<Request>, id: string) {
    exists i :: 0 <= i < |requests| && requests[i].id == id && Answer(requests[i]).Ok?
  }

  lemma {:induction false} AcceptedLast(requests: seq<Request>, id: string)
    requires requests != []
    ensures var n := |requests| - 1;
            AcceptedFor(requests, id) <==>
            AcceptedFor(requests[..n], id) || (requests[n].id == id && Answer(requests[n]).Ok?)
  {
    hide Answer;
    var n := |requests| - 1;
    assert forall i :: 0 <= i < n ==> requests[..n][i] == requests[i];
  }

  /** The first accepted request for an id that was not there is the one whose row it gets. */
  lemma {:induction false} PlacedFirst(orders: Orders, requests: seq<Request>, i: nat)
    requires i < |requests| && requests[i].id !in orders && Answer(requests[i]).Ok?
    requires !AcceptedFor(requests[..i], requests[i].id)
    ensures requests[i].id in PlacedOrders(orders, requests)
      && PlacedOrders(orders, requests)[requests[i].id] == Answer(requests[i]).value.0
  {
    hide Answer, AcceptedFor;
    var n := |requests| - 1;
    if i < n {
      assert requests[..n][..i] == requests[..i];
      PlacedFirst(orders, requests[..n], i);
    } else {
      PlacedRow(orders, requests[..n], requests[n].id);
    }
  }

  lemma {:induction false} OpenedLater(a: Orders, b: Orders)
    requires OnlyOpened(a, b)
    ensures Later(a, [], b) && OrdersGrow(a, b) && forall id :: Unsynced(b, id) <==> Unsynced(a, id)
  {}

  lemma {:induction false} OpenedSame(a: Orders)
    ensures OnlyOpened(a, a)
  {}

  lemma {:induction false} OpenedNext(a: Orders, b: Orders, o: OrderIntent)
    requires OnlyOpened(a, b) && OpeningRow(o) && o.id !in b
    ensures OnlyOpened(a, b[o.id := o])
  {}

  lemma {:induction false} RecordsStep(streams: map<string, string>, s: State, more: seq<Record>)
    requires Reachable(streams, s) && LedgerOk(s.raw + more)
    ensures Reachable(streams, s.(raw := s.raw + more))
    decreases |more|
  {
    hide Reachable;
    if more == [] {
      assert s.raw + more == s.raw && s.(raw := s.raw + more) == s;
    } else {
      assert (s.raw + [more[0]]) + more[1..] == s.raw + more;
      LedgerPrefix(s.raw + [more[0]], more[1..]);
      ReachStep(streams, s, Step.Append(more[0]));
      RecordsStep(streams, Next(s, Step.Append(more[0])), more[1..]);
    }
  }

  lemma {:induction false} LedgerPrefix(raw: seq<Record>, more: seq<Record>)
    requires LedgerOk(raw + more)
    ensures LedgerOk(raw)
  {
    var all := raw + more;
    assert forall i :: 0 <= i < |raw| ==> all[i] == raw[i];
  }

  /** A commit settles only open orders and saves no hash. */
  lemma {:induction false} CommitKeepsUntold(db: Db, p: Payment, copy: Option<OrderIntent>, stream: string,
    store: Contract.Store)
    ensures forall k :: Untold(db.orders, store, k) ==> Untold(CommitTx(db, p, copy, stream).orders, store, k)
  {}

  /** Equal but for transaction hashes. */
  ghost predicate SameButHashes(a: Db, b: Db) {
    && a.evidence == b.evidence && a.cursors == b.cursors && a.orders.Keys == b.orders.Keys
    && forall id :: id in a.orders ==> a.orders[id].(onChainTxHash := b.orders[id].onChainTxHash) == b.orders[id]
  }

  lemma {:induction false} SameHashes(db: Db)
    ensures SameButHashes(db, db)
  {}

  /** The order just settled: its committed row carries the verdict, on top of the copy that was read. */
  lemma {:induction false} SettledRowOf(db: Db, p: Payment, copy: Option<OrderIntent>, stream: string)
    requires copy == FindByMemo(db.orders, p.memo) && !Seen(db.evidence, p.id) && Settles(db.orders, p, copy)
    requires forall id :: id in db.orders ==> db.orders[id].id == id
    ensures var (v, r) := Match(Observe(p), copy);
            var orders := CommitTx(db, p, copy, stream).orders;
            && copy.value.id in orders && OrderFinal(Terminal(v))
            && Opening(orders[copy.value.id]) == Opening(copy.value)
            && orders[copy.value.id].status == Terminal(v) && orders[copy.value.id].rejectReason == r
  {}

  lemma {:induction false} CommitSees(before: Db, now: Db, p: Payment, copy: Option<OrderIntent>, stream: string)
    requires SameButHashes(now, CommitTx(before, p, copy, stream))
    ensures Seen(now.evidence, p.id) && Cursor(now, stream) == p.token
    ensures forall id :: Seen(now.evidence, id) <==> Seen(before.evidence, id) || id == p.id
  {
    if !Seen(before.evidence, p.id) {
      assert now.evidence[|before.evidence|].opId == p.id;
    }
    forall id | Seen(before.evidence, id) ensures Seen(now.evidence, id) {
      var j :| 0 <= j < |before.evidence| && before.evidence[j].opId == id;
      assert now.evidence[j].opId == id;
    }
    forall id | Seen(now.evidence, id) && id != p.id ensures Seen(before.evidence, id) {
      var j :| 0 <= j < |now.evidence| && now.evidence[j].opId == id;
      assert j < |before.evidence| && before.evidence[j].opId == id;
    }
  }

  lemma {:induction false} KnownRows(streams: map<string, string>, s: State)
    requires Reachable(streams, s)
    ensures forall id :: id in s.db.orders ==> s.db.orders[id].id == id
  {
    ReachableSafe(streams, s);
    hide EvidenceOk, SettledOk, LocalOk, StoreOk, CallsOk, OnceOk, HashOk, CountersOk;
    forall id | id in s.db.orders ensures s.db.orders[id].id == id {
      assert RowOk(id, s.db.orders[id]);
    }
  }

  lemma {:induction false} EligibleNext(rows: seq<OrderIntent>, failed: map<string, nat>, i: nat)
    requires i < |rows|
    ensures Eligible(rows[..i + 1], failed) ==
      if Exhausted(failed, rows[i].id) then Eligible(rows[..i], failed) else Eligible(rows[..i], failed) + [rows[i].id]
  {
    assert rows[..i + 1][..i] == rows[..i];
  }

  lemma {:induction false} EligiblePrefix(rows: seq<OrderIntent>, failed: map<string, nat>, k: nat)
    requires k <= |rows|
    ensures Eligible(rows[..k], failed) <= Eligible(rows, failed)
    decreases |rows| - k
  {
    if k < |rows| {
      EligiblePrefix(rows, failed, k + 1);
      EligibleNext(rows, failed, k);
    } else {
      assert rows[..k] == rows;
    }
  }

  /** The tries made are the sweep's choice, at the end of the rows or when the batch is full. */
  lemma {:induction false} ChosenIs(rows: seq<OrderIntent>, failed: map<string, nat>, i: nat, tries: seq<Try>)
    requires i <= |rows| && TriedIds(tries) == Eligible(rows[..i], failed) && |tries| <= BATCH
    requires i == |rows| || (|tries| == BATCH && !Exhausted(failed, rows[i].id))
    ensures TriedIds(tries) == Chosen(rows, failed)
  {
    if i == |rows| {
      assert rows[..i] == rows;
    } else {
      EligibleNext(rows, failed, i);
      EligiblePrefix(rows, failed, i + 1);
      EligiblePrefix(rows, failed, i);
    }
  }

  /** One protocol step of a reachable state. */
  lemma {:induction false} Advance(streams: map<string, string>, s: State, step: Step)
    requires Reachable(streams, s) && Enabled(s, step)
    ensures Reachable(streams, Next(s, step))
    ensures OrdersGrow(s.db.orders, Next(s, step).db.orders) && s.db.evidence <= Next(s, step).db.evidence
  {
    ReachStep(streams, s, step);
    ReachableSafe(streams, s);
    hide Inv;
    StepSafe(s, step);
  }

  lemma {:induction false} PolledTo(raw: seq<Record>, cursor: nat, limit: nat)
    ensures var ps := Payments(Page(raw, cursor, limit));
            PolledCursor(raw, cursor, limit) == if ps == [] then cursor else ps[|ps| - 1].token
  {}

  /** A poll hands its process the next page. */
  lemma {:induction false} PolledPage(streams: map<string, string>, s: State, w: string, lost: bool)
    requires Reachable(streams, s) && Resting(s, w)
    ensures var step, l := Step.Poll(w, lost), s.watchers[w];
            var page := Payments(Page(s.raw, if lost then 0 else Cursor(s.db, l.stream), PAGE_LIMIT));
            Enabled(s, step) &&
            var n := Next(s, step);
            && Reachable(streams, n) && n.raw == s.raw && n.db == s.db && n.chain == s.chain && w in n.watchers
            && n.watchers[w] == l.(page := page, caught := |page| < PAGE_LIMIT, todo := [])
  {
    hide Reachable, Payments, Page;
    ReachStep(streams, s, Step.Poll(w, lost));
  }

  /** The lookup of the next payment of the page, as a protocol step. */
  lemma {:induction false} LookedUp(streams: map<string, string>, s: State, w: string)
    requires Reachable(streams, s) && w in s.watchers && s.watchers[w].page != []
    requires s.watchers[w].read == None && s.watchers[w].job == None
    ensures var step, l := Step.Lookup(w), s.watchers[w];
            Enabled(s, step) &&
            var n := Next(s, step);
            && Reachable(streams, n) && n.raw == s.raw && n.db == s.db && n.chain == s.chain && w in n.watchers
            && n.watchers[w] == l.(read := Some(Read(FindByMemo(s.db.orders, l.page[0].memo), |s.log|)))
  {
    hide Reachable;
    ReachStep(streams, s, Step.Lookup(w));
  }

  /** A rollback leaves the page and the cursor where the database has it. */
  lemma {:induction false} Aborted(streams: map<string, string>, s: State, w: string)
    requires Reachable(streams, s) && w in s.watchers && s.watchers[w].job == None
    ensures var step := Step.Abort(w);
            Enabled(s, step) &&
            var n := Next(s, step);
            && Reachable(streams, n) && n.raw == s.raw && n.db == s.db && n.chain == s.chain && w in n.watchers
            && n.watchers[w] == s.watchers[w].(page := [], read := None, caught := false)
  {
    hide Reachable;
    ReachStep(streams, s, Step.Abort(w));
  }

  /** The commit, and the write it leaves its process with. */
  lemma {:induction false} CommittedAll(streams: map<string, string>, s: State, w: string)
    requires Reachable(streams, s) && w in s.watchers && s.watchers[w].page != []
    requires s.watchers[w].read.Some? && s.watchers[w].job == None
    ensures var step, l := Step.Commit(w), s.watchers[w];
            var p, copy := l.page[0], l.read.value.order;
            Enabled(s, step) &&
            var n := Next(s, step);
            && Reachable(streams, n) && n.raw == s.raw && n.chain == s.chain && w in n.watchers
            && n.db == CommitTx(s.db, p, copy, l.stream)
            && OrdersGrow(s.db.orders, n.db.orders) && s.db.evidence <= n.db.evidence
            && n.watchers[w] == l.(page := l.page[1..], read := None, job := n.watchers[w].job)
            && (if !Seen(s.db.evidence, p.id) && Settles(s.db.orders, p, copy) then
                  copy.Some? && AtStart(n, w, copy.value.id) && !n.watchers[w].job.value.retry
                else n.watchers[w].job == None)
  {
    hide Reachable, OrdersGrow, CommitTx, Seen;
    Advance(streams, s, Step.Commit(w));
  }

  /**
   * A round sweeps after every poll that did not fail on a page that was not full, however many payments it read, and
   * after no other; the attempts of the orders it tries rise by one, and no others.
   */
  lemma {:induction false} RoundSweeps(on: bool, stream: string, limit: nat, a: Point, r: Round, b: Point,
    rows: seq<OrderIntent>, tries: seq<Try>)
    requires RoundStep(on, stream, limit, a, r, b, rows, tries)
    ensures var page := Payments(Page(b.records, if r.poll.cursorLost then 0 else Cursor(a.db, stream), limit));
            && (on && !r.sweep.lookupFails && FaultFree(r.poll) && |page| < limit ==>
                  TriedIds(tries) == Chosen(rows, a.failed))
            && (!on || |page| >= limit ==> tries == [])
    ensures forall id :: Count(b.attempts, id) == Count(a.attempts, id) + if id in TriedIds(tries) then 1 else 0
  {
    hide Payments, Page, Handled, Swept, IsSweepQuery, Chosen, FailedAfterAll, PlacedOrders, TriedIds, Count;
    var page := Payments(Page(b.records, if r.poll.cursorLost then 0 else Cursor(a.db, stream), limit));
    if FaultFree(r.poll) {
      FaultFreePage(on, a.db.(orders := PlacedOrders(a.db.orders, r.requests)), a.chain, page, stream, r.poll.each);
    }
  }

  /** What a quiet and a calm round promise. */
  lemma {:induction false} RoundMeans(r: Round)
    ensures Quiet(r) ==> !r.poll.cursorLost && !r.poll.down && forall i: nat :: r.poll.each(i).fault == NoFault
    ensures Calm(r) ==>
      && r.records == [] && Quiet(r) && !r.sweep.lookupFails
      && forall i: nat :: CleanCalls(r.sweep.each(i)) && r.sweep.each(i).saved
  {}

  /** From one scene to the next by tries only, as a sweep of these rows makes them or none at all. */
  ghost predicate Tried(a: Scene, rows: seq<OrderIntent>, tries: seq<Try>, b: Scene, counts: map<string, nat>,
    now: map<string, nat>)
  {
    && OrdersGrow(a.orders, b.orders) && Later(a.orders, TriedIds(tries), b.orders)
    && (forall k :: Untold(a.orders, a.store, k) ==> Untold(b.orders, b.store, k))
    && b.failed == FailedAfterAll(a.failed, tries)
    && (tries == [] || (IsSweepQuery(a.orders, rows) && TriedIds(tries) == Chosen(rows, a.failed)))
    && forall k :: Count(now, k) == Count(counts, k) + if k in TriedIds(tries) then 1 else 0
  }

  lemma {:induction false} NoSweep(a: Scene, counts: map<string, nat>)
    ensures forall rows :: Tried(a, rows, [], a, counts, counts)
  {
    hide OrdersGrow, Later, Untold;
    GrowReflexive(a.orders);
    LaterSame(a.orders);
  }

  lemma {:induction false} TriedBy(a: Scene, rows: seq<OrderIntent>, tries: seq<Try>, b: Scene,
    counts: map<string, nat>, now: map<string, nat>)
    requires OrdersGrow(a.orders, b.orders) && Later(a.orders, TriedIds(tries), b.orders)
    requires forall k :: Untold(a.orders, a.store, k) ==> Untold(b.orders, b.store, k)
    requires b.failed == FailedAfterAll(a.failed, tries) && IsSweepQuery(a.orders, rows)
    requires TriedIds(tries) == Chosen(rows, a.failed) || TriedIds(tries) == []
    requires forall k :: Count(now, k) == Count(counts, k) + if k in TriedIds(tries) then 1 else 0
    ensures Tried(a, rows, tries, b, counts, now)
  {
    hide OrdersGrow, Later, Untold, IsSweepQuery, Chosen, FailedAfterAll;
  }

  /** What the first half of a round keeps. */
  ghost predicate PollKeeps(a: Scene, b: Scene) {
    && OrdersGrow(a.orders, b.orders) && Later(a.orders, [], b.orders) && b.failed == a.failed
    && forall k :: Untold(a.orders, a.store, k) ==> Untold(b.orders, b.store, k)
  }

  lemma {:induction false} PollKept(a: Scene, db1: Db, db2: Db, b: Scene, page: seq<Payment>, n: nat, stream: string)
    requires OnlyOpened(a.orders, db1.orders) && Paged(db1, a.store, db2, b.store, page, n, stream)
    requires b.orders == db2.orders && b.failed == a.failed
    ensures PollKeeps(a, b) && db1.evidence <= db2.evidence && n <= |page|
  {
    hide OnlyOpened, Paged, Untold, OrdersGrow, Later;
    OpenedLater(a.orders, db1.orders);
    OpenedUntold(a.orders, db1.orders, a.store);
    PagedMeans(db1, a.store, db2, b.store, page, n, stream);
    GrowTransitive(a.orders, db1.orders, b.orders);
    LaterThen(a.orders, db1.orders, [], b.orders);
  }

  /** A round by its halves: a poll, and tries made. */
  lemma {:induction false} KeptRound(a: Scene, polled: Scene, rows: seq<OrderIntent>, tries: seq<Try>, b: Scene,
    counts: map<string, nat>, now: map<string, nat>)
    requires PollKeeps(a, polled) && Tried(polled, rows, tries, b, counts, now)
    ensures Kept(a, counts, b, now)
  {
    hide IsSweepQuery, Chosen, FailedAfterAll, Untold, Blocked, OrdersGrow, Later;
    GrowTransitive(a.orders, polled.orders, b.orders);
    BlockedLater(a.orders, a.failed, polled.orders);
    if tries == [] {
      NoTries(a.failed);
      BlockedLater(polled.orders, a.failed, b.orders);
    } else {
      BlockedSweep(polled.orders, polled.failed, rows, tries, b.orders);
    }
  }

  lemma {:induction false} NoTries(failed: map<string, nat>)
    ensures FailedAfterAll(failed, []) == failed
  {}

  lemma {:induction false} OpenedStep(streams: map<string, string>, s: State, o: OrderIntent)
    requires Reachable(streams, s) && o.id !in s.db.orders && OpeningRow(o)
    ensures var step := Step.Create(o);
            Enabled(s, step) &&
            var n := Next(s, step);
            && Reachable(streams, n) && n.raw == s.raw && n.chain == s.chain && n.watchers == s.watchers
            && n.db == s.db.(orders := s.db.orders[o.id := o])
  {
    hide Reachable, OpeningRow;
    ReachStep(streams, s, Step.Create(o));
  }

  /** A round by its parts. */
  lemma {:induction false} RoundIs(on: bool, stream: string, limit: nat, a: Point, r: Round, heard: Point, n: nat,
    failed: bool, b: Point, rows: seq<OrderIntent>, tries: seq<Try>)
    requires b.records == a.records + r.records && (failed <==> PollFails(on, stream, limit, a, r))
    requires (heard.db, heard.chain, n) == Heard(on, stream, limit, a, r)
    requires if !failed && n < limit && on && !r.sweep.lookupFails then
               && IsSweepQuery(heard.db.orders, rows) && TriedIds(tries) == Chosen(rows, a.failed)
               && (b.db, b.chain, tries) == Swept(heard.db, heard.chain, rows, a.failed, r.sweep.each)
             else (b.db, b.chain, tries) == (heard.db, heard.chain, [])
    requires Tried(Scene(heard.db.orders, a.failed, heard.chain.store), rows, tries,
      Scene(b.db.orders, b.failed, b.chain.store), a.attempts, b.attempts)
    ensures RoundStep(on, stream, limit, a, r, b, rows, tries)
  {
    hide Heard, PollFails, Swept, IsSweepQuery, Chosen, FailedAfterAll, TriedIds, OrdersGrow, Later, Untold;
  }

  /** A sweep attempt as a protocol step: a legal one, and what it does to this watcher and the table. */
  lemma {:induction false} TriedStep(streams: map<string, string>, s: State, w: string, t: Try, saved: bool)
    requires Reachable(streams, s) && Writing(s, w) && s.watchers[w].job.value == Job(t.id, CALLS, true)
      && t.id in s.db.orders
    requires s.watchers[w].wait == t.ack
    requires t.ack.Some? ==> FreshAck(s, t.ack.value) && s.chain.succeeded[t.ack.value].id == t.id
    ensures var step := Step.Attempt(w, t.ack, saved);
            Enabled(s, step) &&
            var n := Next(s, step);
            && Reachable(streams, n) && OrdersGrow(s.db.orders, n.db.orders)
            && n.raw == s.raw && n.chain == s.chain && w in n.watchers
            && n.watchers[w] == s.watchers[w].(job := None, wait := None,
               failed := FailedAfter(s.watchers[w].failed, t),
                                               attempts := n.watchers[w].attempts, acks := n.watchers[w].acks)
            && (forall k :: Count(n.watchers[w].attempts, k)
                            == Count(s.watchers[w].attempts, k) + if k == t.id then 1 else 0)
            && n.db == s.db.(orders := OrdersAfterTry(s.db.orders, if saved then t else Try(t.id, None)))
            && n.db == (if t.ack.Some? && saved then WithHash(s.db, t.id, t.ack.value) else s.db)
  {
    hide Reachable, FreshAck, OrdersGrow;
    Advance(streams, s, Step.Attempt(w, t.ack, saved));
  }

  /** A try leaves the rows of other orders waiting. */
  lemma {:induction false} AwaitsStay(orders: Orders, t: Try, saved: bool)
    ensures forall row: OrderIntent :: row.id != t.id && Awaits(orders, row) ==>
      Awaits(OrdersAfterTry(orders, if saved then t else Try(t.id, None)), row)
  {}

  /** The sweep passes over its next row. */
  lemma {:induction false} PassedOver(streams: map<string, string>, s: State, w: string)
    requires Reachable(streams, s) && w in s.watchers && s.watchers[w].job == None && s.watchers[w].todo != []
    requires Exhausted(s.watchers[w].failed, s.watchers[w].todo[0])
    ensures Enabled(s, Step.PassOver(w))
    ensures var n := Next(s, Step.PassOver(w));
            Reachable(streams, n) && n == With(s, w, s.watchers[w].(todo := s.watchers[w].todo[1..]))
  {
    hide Reachable;
    ReachStep(streams, s, Step.PassOver(w));
  }

  /** The sweep takes up its next row. */
  lemma {:induction false} TakeUp(streams: map<string, string>, s: State, w: string)
    requires Reachable(streams, s) && w in s.watchers && s.watchers[w].job == None && s.watchers[w].todo != []
    requires s.watchers[w].done < BATCH && !Exhausted(s.watchers[w].failed, s.watchers[w].todo[0])
    ensures Enabled(s, Step.TryNext(w))
    ensures var n := Next(s, Step.TryNext(w));
            && Reachable(streams, n) && n.raw == s.raw && n.db == s.db && n.chain == s.chain && n.acked == s.acked
            && AtStart(n, w, s.watchers[w].todo[0])
            && n.watchers[w] == s.watchers[w].(todo := s.watchers[w].todo[1..], done := s.watchers[w].done + 1,
                                               job := Some(Job(s.watchers[w].todo[0], 0, true)))
  {
    hide Reachable;
    ReachStep(streams, s, Step.TryNext(w));
  }

  lemma {:induction false} GrowReflexive(orders: Orders)
    ensures OrdersGrow(orders, orders)
  {}

  /** The row is the database's, settled and without a hash. */
  predicate Awaits(orders: Orders, row: OrderIntent) { Unsynced(orders, row.id) && orders[row.id] == row }

  lemma {:induction false} AwaitsMeans(orders: Orders, row: OrderIntent)
    requires Awaits(orders, row)
    ensures Unsynced(orders, row.id) && orders[row.id] == row
  {}

  /** How far a sweep got after i rows: which it tried, what was counted, and that the rest still waits. */
  ghost predicate SweepState(orders0: Orders, failed0: map<string, nat>, found: seq<OrderIntent>, i: nat,
    tries: seq<Try>,
                             orders: Orders, failed: map<string, nat>, saved: bool)
  {
    && i <= |found| && TriedIds(tries) == Eligible(found[..i], failed0) && failed == FailedAfterAll(failed0, tries)
    && (forall j, k :: 0 <= j < k < |found| ==> found[j].id != found[k].id)
    && (forall k :: 0 <= k < |found| ==> found[k].id in orders0 && orders0[found[k].id] == found[k])
    && (forall k :: i <= k < |found| ==>
         Count(failed, found[k].id) == Count(failed0, found[k].id) && Awaits(orders, found[k]))
    && (saved ==> ValidTries(orders0, failed0, tries) && orders == OrdersAfterAll(orders0, tries))
  }

  lemma {:induction false} SweepStarts(orders: Orders, failed: map<string, nat>, found: seq<OrderIntent>, saved: bool)
    requires IsSweepQuery(orders, found)
    ensures SweepState(orders, failed, found, 0, [], orders, failed, saved)
  {
    assert found[..0] == [];
  }

  /** The next row waits; if it is exhausted the sweep passes over it. */
  lemma {:induction false} SweepRow(orders0: Orders, failed0: map<string, nat>, found: seq<OrderIntent>, i: nat,
    tries: seq<Try>,
                                    orders: Orders, failed: map<string, nat>, saved: bool)
    requires i < |found| && SweepState(orders0, failed0, found, i, tries, orders, failed, saved)
    ensures Awaits(orders, found[i])
    ensures forall k :: i < k < |found| ==> found[k].id != found[i].id
    ensures found[i].id !in TriedIds(tries) && found[i].id in orders0 && orders0[found[i].id] == found[i]
    ensures Count(failed, found[i].id) == Count(failed0, found[i].id)
    ensures Count(failed, found[i].id) >= MAX_ATTEMPTS ==>
      SweepState(orders0, failed0, found, i + 1, tries, orders, failed, saved)
  {
    EligibleNext(found, failed0, i);
    EligibleMeaning(found[..i], failed0, found[i].id);
  }

  /** A try of the next row extends the tries by it and leaves the later rows waiting. */
  lemma {:induction false} SweepTries(orders0: Orders, failed0: map<string, nat>, found: seq<OrderIntent>, i: nat,
    tries: seq<Try>,
                                      orders: Orders, failed: map<string, nat>, saved: bool, t: Try, after: Orders)
    requires i < |found| && SweepState(orders0, failed0, found, i, tries, orders, failed, saved)
    requires Count(failed, found[i].id) < MAX_ATTEMPTS && t.id == found[i].id
    requires saved ==> after == OrdersAfterTry(orders, t)
    requires forall row: OrderIntent :: row.id != t.id && Awaits(orders, row) ==> Awaits(after, row)
    ensures SweepState(orders0, failed0, found, i + 1, tries + [t], after, FailedAfter(failed, t), saved)
  {
    hide Awaits, TriedIds, Eligible, FailedAfterAll, OrdersAfterAll, ValidTries, OrdersAfterTry;
    AwaitsMeans(orders, found[i]);
    EligibleNext(found, failed0, i);
    TriesAppend(orders0, failed0, tries, t);
  }

  /** At the last row, or at an eligible one with the batch full, the tries are the sweep's choice. */
  lemma {:induction false} SweepEnds(orders0: Orders, failed0: map<string, nat>, found: seq<OrderIntent>, i: nat,
    tries: seq<Try>,
                                     orders: Orders, failed: map<string, nat>, saved: bool)
    requires SweepState(orders0, failed0, found, i, tries, orders, failed, saved) && |tries| <= BATCH
    requires i == |found| || (|tries| == BATCH && Count(failed, found[i].id) < MAX_ATTEMPTS)
    ensures TriedIds(tries) == Chosen(found, failed0) && failed == FailedAfterAll(failed0, tries)
    ensures saved ==> ValidTries(orders0, failed0, tries) && orders == OrdersAfterAll(orders0, tries)
  {
    ChosenIs(found, failed0, i, tries);
  }
}
