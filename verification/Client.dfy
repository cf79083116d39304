/**
 * lib/libsoroban/client.go: sending one contract call, and what its caller learns of it. The network
 * between client and contract decides, call by call, what is lost, delayed or delivered.
 */
module Client {
  import opened Wrappers
  import opened Models
  import opened Protocol
  import Contract

  const POLLS: nat := 30

  /**
   * One second of waiting: our transaction and others that make it into the ledger, whether the context is
   * done, and whether GetTransaction answers.
   */
  datatype Tick = Tick(own: bool, others: seq<TxHash>, cancelled: bool, answered: bool)

  /** SendTransaction succeeds, or fails with the transaction lost, or fails with it delivered all the same. */
  datatype Sending = Accepted | Lost | Delivered

  /** What the network does around one invoke. */
  datatype CallEnv = CallEnv(before: seq<TxHash>, prepared: bool, sending: Sending, ticks: seq<Tick>)

  datatype InvokeError = NotPrepared | SimulationFailed | SendFailed | Cancelled | FailedOnLedger | TimedOut

  const QUIET := Tick(false, [], false, true)

  /** What second i brings; those not listed are quiet. */
  function TickAt(ticks: seq<Tick>, i: nat): Tick { if i < |ticks| then ticks[i] else QUIET }

  /** Nothing goes wrong: our transaction lands in second i, and we are told in second j. */
  ghost predicate CleanAt(env: CallEnv, i: nat, j: nat) {
    && env.before == [] && env.prepared && env.sending == Accepted
    && ToldAt(env.ticks, i, j) && Alone(env.ticks, j)
  }

  /**
   * Our transaction lands in second i and GetTransaction, which may answer before and fail any number of times after,
   * first answers again in second j, with nobody cancelling until then.
   */
  ghost predicate ToldAt(ticks: seq<Tick>, i: nat, j: nat) {
    && i <= j < POLLS && TickAt(ticks, i).own && TickAt(ticks, j).answered
    && (forall k :: 0 <= k <= j ==> !TickAt(ticks, k).cancelled)
    && (forall k :: 0 <= k < i ==> !TickAt(ticks, k).own)
    && (forall k :: i <= k < j ==> !TickAt(ticks, k).answered)
  }

  /** No other transaction lands up to second j. */
  ghost predicate Alone(ticks: seq<Tick>, j: nat) { forall k :: 0 <= k <= j ==> TickAt(ticks, k).others == [] }

  /** Up to second n nobody cancels, and no answer comes once our transaction has landed. */
  ghost predicate Unanswered(ticks: seq<Tick>, n: nat) {
    forall k :: 0 <= k < n ==>
      && !TickAt(ticks, k).cancelled
      && (TickAt(ticks, k).answered ==> forall m :: 0 <= m <= k ==> !TickAt(ticks, m).own)
  }

  /** Nothing lands and nobody cancels, for as long as the caller waits. */
  ghost predicate Silent(ticks: seq<Tick>) {
    Alone(ticks, POLLS) && forall k :: 0 <= k < POLLS ==> !TickAt(ticks, k).own && !TickAt(ticks, k).cancelled
  }

  ghost predicate Clean(env: CallEnv) { exists i: nat, j: nat :: CleanAt(env, i, j) }

  // --- What one call does, as a function of what the network does ------------------------------

  /** A transaction lands, if it is to and still in flight. */
  ghost function LandedIf(c: Chain, tx: TxHash, lands: bool): Chain {
    if lands && tx in c.inflight then Landed(c, tx) else c
  }

  /** Transactions landing one after the other, leaving out one of them. */
  ghost function LandedBut(c: Chain, txs: seq<TxHash>, but: Option<TxHash>): Chain {
    if txs == [] then c
    else LandedIf(LandedBut(c, txs[..|txs| - 1], but), txs[|txs| - 1], but != Some(txs[|txs| - 1]))
  }

  /** The chain after one second of waiting for tx. */
  ghost function Ticked(c: Chain, tx: TxHash, t: Tick): Chain {
    LandedIf(LandedBut(c, t.others, Some(tx)), tx, t.own)
  }

  /** From second i on: the chain when the wait for tx ends, and what its caller is told. */
  ghost function Waited(c: Chain, tx: TxHash, ticks: seq<Tick>, i: nat): (Chain, Result<TxHash, InvokeError>)
    decreases POLLS - i
  {
    if i >= POLLS then (c, Err(TimedOut))
    else if TickAt(ticks, i).cancelled then (c, Err(Cancelled))
    else
      var d := Ticked(c, tx, TickAt(ticks, i));
      if TickAt(ticks, i).answered && tx in d.succeeded then (d, Ok(tx))
      else if TickAt(ticks, i).answered && tx !in d.inflight then (d, Err(FailedOnLedger))
      else Waited(d, tx, ticks, i + 1)
  }

  /** One call: the chain when it ends, and what its caller is told. */
  ghost function Invoked(c: Chain, call: Contract.Call, env: CallEnv): (Chain, Result<TxHash, InvokeError>) {
    var d := LandedBut(c, env.before, None);
    if !env.prepared then (d, Err(NotPrepared))
    else if !Contract.Accepts(d.store, call) then (d, Err(SimulationFailed))
    else if env.sending == Lost then (d, Err(SendFailed))
    else if env.sending == Delivered then (Sent(d, call), Err(SendFailed))
    else Waited(Sent(d, call), d.next, env.ticks, 0)
  }

  /** The first n seconds without our own transaction. */
  ghost function Aside(c: Chain, tx: TxHash, ticks: seq<Tick>, n: nat): Chain {
    if n == 0 then c else LandedBut(Aside(c, tx, ticks, n - 1), TickAt(ticks, n - 1).others, Some(tx))
  }

  /** Transactions other than tx leave it as it is. */
  lemma {:induction false} OthersLand(c: Chain, txs: seq<TxHash>, tx: TxHash)
    ensures var d := LandedBut(c, txs, Some(tx));
            && (tx in d.inflight <==> tx in c.inflight) && (tx in d.succeeded <==> tx in c.succeeded)
            && (tx in c.inflight ==> d.inflight[tx] == c.inflight[tx])
            && (tx in c.succeeded ==> d.succeeded[tx] == c.succeeded[tx])
  {
    if txs != [] { OthersLand(c, txs[..|txs| - 1], tx); }
  }

  /** A transaction that has landed is answered for, or not, by the first answer. */
  lemma {:induction false} LandedWait(c: Chain, tx: TxHash, ticks: seq<Tick>, m: nat, j: nat)
    requires tx !in c.inflight && m <= j <= POLLS
    requires forall k :: m <= k < j ==> !TickAt(ticks, k).answered && !TickAt(ticks, k).cancelled
    ensures j == POLLS ==> Waited(c, tx, ticks, m).1 == Err(TimedOut)
    ensures j < POLLS && TickAt(ticks, j).cancelled ==> Waited(c, tx, ticks, m).1 == Err(Cancelled)
    ensures j < POLLS && TickAt(ticks, j).answered && !TickAt(ticks, j).cancelled ==>
      && Waited(c, tx, ticks, m).1 == (if tx in c.succeeded then Ok(tx) else Err(FailedOnLedger))
      && (Alone(ticks, j) ==> Waited(c, tx, ticks, m).0 == c)
    decreases j - m
  {
    hide LandedBut;
    NobodyElse(c, tx);
    if m < POLLS {
      OthersLand(c, TickAt(ticks, m).others, tx);
      if m < j { LandedWait(Ticked(c, tx, TickAt(ticks, m)), tx, ticks, m + 1, j); }
    }
  }

  lemma {:induction false} NobodyElse(c: Chain, tx: TxHash)
    ensures LandedBut(c, [], Some(tx)) == c
  {}

  /** Until it lands, the caller only sees the others. */
  lemma {:induction false} FlightWait(c: Chain, tx: TxHash, ticks: seq<Tick>, n: nat)
    requires tx in c.inflight && tx !in c.succeeded && n <= POLLS
    requires forall k :: 0 <= k < n ==> !TickAt(ticks, k).own && !TickAt(ticks, k).cancelled
    ensures var d := Aside(c, tx, ticks, n);
            && Waited(c, tx, ticks, 0) == Waited(d, tx, ticks, n)
            && tx in d.inflight && tx !in d.succeeded && d.inflight[tx] == c.inflight[tx]
  {
    hide LandedBut;
    if n > 0 {
      FlightWait(c, tx, ticks, n - 1);
      OthersLand(Aside(c, tx, ticks, n - 1), TickAt(ticks, n - 1).others, tx);
    }
  }

  lemma {:induction false} AloneAside(c: Chain, tx: TxHash, ticks: seq<Tick>, n: nat)
    requires forall k :: 0 <= k < n ==> TickAt(ticks, k).others == []
    ensures Aside(c, tx, ticks, n) == c
  {
    if n > 0 {
      AloneAside(c, tx, ticks, n - 1);
      NobodyElse(c, tx);
    }
  }

  /**
   * The first answer after the transaction has landed decides, in whatever second it comes and whatever else lands:
   * success exactly if the contract accepted the call when it landed.
   */
  lemma {:induction false} AnswerDecides(c: Chain, tx: TxHash, ticks: seq<Tick>, i: nat, j: nat)
    requires tx in c.inflight && tx !in c.succeeded && ToldAt(ticks, i, j)
    ensures Waited(c, tx, ticks, 0).1 ==
      if Contract.Accepts(Aside(c, tx, ticks, i + 1).store, c.inflight[tx]) then Ok(tx) else Err(FailedOnLedger)
    ensures Alone(ticks, j) ==> Waited(c, tx, ticks, 0).0 == Landed(c, tx) && Aside(c, tx, ticks, i + 1) == c
  {
    hide LandedBut, Contract.Accepts, Contract.Apply;
    FlightWait(c, tx, ticks, i);
    var before := Aside(c, tx, ticks, i);
    OthersLand(before, TickAt(ticks, i).others, tx);
    var landed := Ticked(before, tx, TickAt(ticks, i));
    assert landed == Landed(Aside(c, tx, ticks, i + 1), tx);
    if i < j { LandedWait(landed, tx, ticks, i + 1, j); }
    if Alone(ticks, j) {
      AloneAside(c, tx, ticks, i);
      AloneAside(c, tx, ticks, i + 1);
    }
  }

  /** The second in which the transaction first lands, if it does before second n. */
  lemma {:induction false} FirstLanding(ticks: seq<Tick>, n: nat) returns (i: nat)
    ensures i <= n && (i < n ==> TickAt(ticks, i).own) && forall k :: 0 <= k < i ==> !TickAt(ticks, k).own
  {
    i := 0;
    while i < n && !TickAt(ticks, i).own
      invariant i <= n && forall k :: 0 <= k < i ==> !TickAt(ticks, k).own
    {
      i := i + 1;
    }
  }

  /** Without such an answer the wait ends with the cancellation, or with its thirty seconds. */
  lemma {:induction false} NoAnswer(c: Chain, tx: TxHash, ticks: seq<Tick>, n: nat)
    requires tx in c.inflight && tx !in c.succeeded && n <= POLLS && Unanswered(ticks, n)
    requires n == POLLS || TickAt(ticks, n).cancelled
    ensures Waited(c, tx, ticks, 0).1 == Err(if n == POLLS then TimedOut else Cancelled)
  {
    hide LandedBut, Contract.Accepts, Contract.Apply;
    var i := FirstLanding(ticks, n);
    FlightWait(c, tx, ticks, i);
    if i < n {
      var before := Aside(c, tx, ticks, i);
      OthersLand(before, TickAt(ticks, i).others, tx);
      LandedWait(Ticked(before, tx, TickAt(ticks, i)), tx, ticks, i + 1, n);
    }
  }

  /** A silent wait times out and leaves the transaction in flight. */
  lemma {:induction false} SilentWait(c: Chain, tx: TxHash, ticks: seq<Tick>)
    requires tx in c.inflight && tx !in c.succeeded && Silent(ticks)
    ensures Waited(c, tx, ticks, 0) == (c, Err(TimedOut))
  {
    FlightWait(c, tx, ticks, POLLS);
    AloneAside(c, tx, ticks, POLLS);
  }

  /** Every end a wait can come to, each under its own condition; there are no others. */
  lemma {:induction false} WaitEnds(c: Chain, tx: TxHash, ticks: seq<Tick>)
    requires tx in c.inflight && tx !in c.succeeded
    ensures Silent(ticks) ==> Waited(c, tx, ticks, 0) == (c, Err(TimedOut))
    ensures forall i: nat, j: nat :: ToldAt(ticks, i, j) ==>
      Waited(c, tx, ticks, 0).1 ==
        if Contract.Accepts(Aside(c, tx, ticks, i + 1).store, c.inflight[tx]) then Ok(tx) else Err(FailedOnLedger)
    ensures forall i: nat, j: nat :: ToldAt(ticks, i, j) && Alone(ticks, j) ==>
      Waited(c, tx, ticks, 0).0 == Landed(c, tx) && Aside(c, tx, ticks, i + 1) == c
    ensures forall n: nat :: n < POLLS && TickAt(ticks, n).cancelled && Unanswered(ticks, n) ==>
      Waited(c, tx, ticks, 0).1 == Err(Cancelled)
    ensures Unanswered(ticks, POLLS) ==> Waited(c, tx, ticks, 0).1 == Err(TimedOut)
    ensures || Unanswered(ticks, POLLS)
            || (exists n: nat :: n < POLLS && TickAt(ticks, n).cancelled && Unanswered(ticks, n))
            || exists i: nat, j: nat :: ToldAt(ticks, i, j)
  {
    hide Waited, Aside, Contract.Accepts, Contract.Apply;
    if Silent(ticks) { SilentWait(c, tx, ticks); }
    forall i: nat, j: nat | ToldAt(ticks, i, j) ensures
      Waited(c, tx, ticks, 0).1 ==
        if Contract.Accepts(Aside(c, tx, ticks, i + 1).store, c.inflight[tx]) then Ok(tx) else Err(FailedOnLedger)
    { AnswerDecides(c, tx, ticks, i, j); }
    forall i: nat, j: nat | ToldAt(ticks, i, j) && Alone(ticks, j) ensures
      Waited(c, tx, ticks, 0).0 == Landed(c, tx) && Aside(c, tx, ticks, i + 1) == c
    { AnswerDecides(c, tx, ticks, i, j); }
    forall n: nat | n < POLLS && TickAt(ticks, n).cancelled && Unanswered(ticks, n)
      ensures Waited(c, tx, ticks, 0).1 == Err(Cancelled)
    { NoAnswer(c, tx, ticks, n); }
    if Unanswered(ticks, POLLS) { NoAnswer(c, tx, ticks, POLLS); }
    FirstEnd(ticks);
  }

  /** The wait meets a cancellation, or an answer after the landing, or neither. */
  lemma {:induction false} FirstEnd(ticks: seq<Tick>)
    ensures || Unanswered(ticks, POLLS)
            || (exists n: nat :: n < POLLS && TickAt(ticks, n).cancelled && Unanswered(ticks, n))
            || exists i: nat, j: nat :: ToldAt(ticks, i, j)
  {
    var n: nat := 0;
    while n < POLLS
      invariant n <= POLLS && Unanswered(ticks, n)
    {
      if TickAt(ticks, n).cancelled { return; }
      var i := FirstLanding(ticks, n + 1);
      if TickAt(ticks, n).answered && i <= n {
        assert ToldAt(ticks, i, n);
        return;
      }
      n := n + 1;
    }
  }

  /** A clean call succeeds exactly if the contract accepts it, and leaves nothing else behind. */
  lemma {:induction false} CleanCall(c: Chain, call: Contract.Call, env: CallEnv)
    requires Clean(env) && c.next !in c.inflight && c.next !in c.succeeded
    ensures Invoked(c, call, env).0 == CleanChain(c, call)
    ensures Invoked(c, call, env).1.Ok? <==> Contract.Accepts(c.store, call)
  {
    hide Contract.Accepts, Contract.Apply, Waited, LandedBut;
    var i: nat, j: nat :| CleanAt(env, i, j);
    assert LandedBut(c, [], None) == c by { Nothing(c); }
    CleanLanding(c, call);
    AnswerDecides(Sent(c, call), c.next, env.ticks, i, j);
  }

  lemma {:induction false} Nothing(c: Chain)
    ensures LandedBut(c, [], None) == c
  {}

  lemma {:induction false} LandingsKeepNext(c: Chain, txs: seq<TxHash>, but: Option<TxHash>)
    ensures LandedBut(c, txs, but).next == c.next
  {
    if txs != [] { LandingsKeepNext(c, txs[..|txs| - 1], but); }
  }

  lemma {:induction false} WaitKeepsNext(c: Chain, tx: TxHash, ticks: seq<Tick>, i: nat)
    ensures Waited(c, tx, ticks, i).0.next == c.next
    decreases POLLS - i
  {
    hide LandedBut;
    if i < POLLS {
      var d := Ticked(c, tx, TickAt(ticks, i));
      LandingsKeepNext(c, TickAt(ticks, i).others, Some(tx));
      WaitKeepsNext(d, tx, ticks, i + 1);
    }
  }

  /**
   * One transaction is sent, or none: one exactly if the call could be prepared, the contract accepts it after what
   * landed before the simulation, and the network does not lose it. A sending that fails with the transaction
   * delivered is told as a failure and leaves it in flight.
   */
  lemma {:induction false} SentOnce(c: Chain, call: Contract.Call, env: CallEnv)
    ensures var d, (after, r) := LandedBut(c, env.before, None), Invoked(c, call, env);
            var sent := env.prepared && Contract.Accepts(d.store, call) && env.sending != Lost;
            && after.next == c.next + (if sent then 1 else 0)
            && (!sent ==> after == d && r.Err?)
            && (sent && env.sending == Delivered ==>
                  r.Err? && c.next in after.inflight && after.inflight[c.next] == call && after.store == d.store)
  {
    hide LandedBut, Waited, Contract.Accepts;
    LandingsKeepNext(c, env.before, None);
    var d := LandedBut(c, env.before, None);
    WaitKeepsNext(Sent(d, call), d.next, env.ticks, 0);
  }


  /** The chain after a clean call: applied and succeeded, or refused by the simulation and never sent. */
  ghost function CleanChain(c: Chain, call: Contract.Call): Chain {
    if Contract.Accepts(c.store, call) then
      Chain(Contract.Apply(c.store, call), c.inflight, c.succeeded[c.next := call], c.next + 1)
    else c
  }

  lemma {:induction false} CleanLanding(c: Chain, call: Contract.Call)
    requires c.next !in c.inflight
    ensures Contract.Accepts(c.store, call) ==> Landed(Sent(c, call), c.next) == CleanChain(c, call)
  {
    assert Sent(c, call).inflight - {c.next} == c.inflight;
  }

  lemma {:induction false} CleanStore(c: Chain, call: Contract.Call)
    ensures CleanChain(c, call).store == Contract.Apply(c.store, call)
  {}

  /** An entry that was and stays final refuses the call. */
  lemma {:induction false} StillFinal(before: Contract.Store, now: Contract.Store, call: Contract.Call)
    requires FinalIn(before, call.id) ==> FinalIn(now, call.id)
    ensures Contract.Accepts(now, call) ==> !FinalIn(before, call.id)
  {}

  /** Watcher w is at the point of its write where this is the call to make. */
  ghost predicate Calling(s: State, w: string, call: Contract.Call) {
    && Writing(s, w) && s.watchers[w].wait == None && s.watchers[w].job.value.stage < CALLS
    && var job := s.watchers[w].job.value;
       && job.id in s.db.orders && Judged(s.db.orders[job.id]) && call == NextCall(s.db.orders, job)
       && Permitted(s.db.orders, call)
  }

  /** The state after a call of watcher w: the chain has moved, the call is made or missed, and a success is told. */
  ghost function Told(s: State, c: Chain, w: string, r: Result<TxHash, InvokeError>): State
    requires Writing(s, w)
  {
    Advanced(s, w, if r.Ok? then Some(r.value) else None).(chain := c)
  }

  lemma {:induction false} Missed(streams: map<string, string>, s: State, w: string)
    requires Reachable(streams, s) && Writing(s, w) && s.watchers[w].wait == None
      && s.watchers[w].job.value.stage < CALLS
    ensures Reachable(streams, Advanced(s, w, None))
  {
    hide Reachable;
    ReachStep(streams, s, Step.Miss(w));
  }

  /** A watcher gives up what it waits for, whatever the chain has done meanwhile. */
  lemma {:induction false} GivenUp(streams: map<string, string>, s: State, w: string, tx: TxHash, c: Chain)
    requires Writing(s, w) && Reachable(streams, Advanced(s, w, Some(tx)).(chain := c))
    ensures Reachable(streams, Advanced(s, w, None).(chain := c))
  {
    hide Reachable;
    var t := Advanced(s, w, Some(tx)).(chain := c);
    ReachStep(streams, t, Step.GiveUp(w));
    assert Next(t, Step.GiveUp(w)) == Advanced(s, w, None).(chain := c);
  }

  /** A caller that does not look at the outcome of a call is as if it had not been told. */
  lemma {:induction false} Ignored(streams: map<string, string>, s: State, c: Chain, w: string, r: Result<TxHash,
    InvokeError>)
    requires Writing(s, w) && Reachable(streams, Told(s, c, w, r))
    ensures Reachable(streams, Advanced(s, w, None).(chain := c))
  {
    hide Reachable;
    if r.Ok? { GivenUp(streams, s, w, r.value, c); }
  }

  ghost predicate FinalIn(store: Contract.Store, id: string) { id in store && Contract.Final(store[id].status) }

  class Network {
    const operator: string
    const contract: Contract.OrderStatusContract
    var inflight: map<TxHash, Contract.Call>
    var succeeded: map<TxHash, Contract.Call>
    var next: TxHash

    ghost predicate Valid()
      reads this, contract
    {
      && contract.operator == operator
      && (forall t :: t in inflight ==> t < next && t !in succeeded)
      && (forall t :: t in succeeded ==> t < next)
    }

    ghost function View(): Chain
      reads this, contract
    {
      Chain(contract.orders, inflight, succeeded, next)
    }

    constructor (operator: string, contract: Contract.OrderStatusContract)
      requires contract.operator == operator && contract.orders == map[]
      ensures Valid() && this.operator == operator && this.contract == contract && View() == EMPTY_CHAIN
    {
      this.operator := operator;
      this.contract := contract;
      inflight, succeeded, next := map[], map[], 0;
    }

    /** A transaction in flight is applied: it succeeds, or fails and changes nothing. */
    method Land(tx: TxHash)
      requires Valid() && tx in inflight
      modifies this, contract
      ensures Valid() && View() == Landed(old(View()), tx)
    {
      var call := inflight[tx];
      var r;
      match call {
        case CreateCall(id, buyer, amount, asset, hash) =>
          r := contract.CreateOrder(operator, id, buyer, amount, asset, hash);
        case StatusCall(id, status) =>
          r := contract.SetStatus(operator, id, status);
      }
      inflight := inflight - {tx};
      if r.Ok? {
        succeeded := succeeded[tx := call];
      }
    }

    /** These transactions land one after the other; a caller of one of them lands it itself. */
    method LandAll(txs: seq<TxHash>, but: Option<TxHash>, ghost streams: map<string, string>, ghost s: State)
      requires Valid() && Reachable(streams, s) && s.chain == View()
      modifies this, contract
      ensures Valid() && Reachable(streams, s.(chain := View())) && next == old(next)
      ensures forall id :: old(FinalIn(contract.orders, id)) ==> FinalIn(contract.orders, id)
      ensures View() == LandedBut(old(View()), txs, but)
    {
      hide Reachable, FinalIn;
      assert s.(chain := View()) == s;
      for i := 0 to |txs|
        invariant Valid() && Reachable(streams, s.(chain := View())) && next == old(next)
        invariant forall id :: old(FinalIn(contract.orders, id)) ==> FinalIn(contract.orders, id)
        invariant View() == LandedBut(old(View()), txs[..i], but)
      {
        assert txs[..i + 1][..i] == txs[..i];
        LandIf(txs[i], but != Some(txs[i]), streams, s.(chain := View()));
      }
      assert txs[..|txs|] == txs;
    }

    /** invoke: simulate, send, and poll for at most thirty seconds. A success leaves its caller just told of it. */
    method Invoke(call: Contract.Call, env: CallEnv, ghost w: string, ghost streams: map<string, string>,
      ghost s: State)
      returns (r: Result<TxHash, InvokeError>)
      requires Valid() && Reachable(streams, s) && s.chain == View() && Calling(s, w, call)
      modifies this, contract
      ensures Valid() && Reachable(streams, Told(s, View(), w, r)) && next >= old(next)
      ensures (View(), r) == Invoked(old(View()), call, env)
      ensures r.Ok? ==> r.value >= old(next) && r.value in succeeded && succeeded[r.value] == call
      ensures forall id :: old(FinalIn(contract.orders, id)) ==> FinalIn(contract.orders, id)
      ensures old(FinalIn(contract.orders, call.id)) ==> r.Err?
      ensures Clean(env) ==> View() == CleanChain(old(View()), call) && (r.Ok? <==>
        Contract.Accepts(old(contract.orders), call))
    {
      hide Reachable, FinalIn, Permitted, LandedBut, Waited, CleanChain, Clean;
      if Clean(env) { CleanCall(View(), call, env); }
      LandAll(env.before, None, streams, s);
      if !env.prepared {
        Missed(streams, s.(chain := View()), w);
        return Err(NotPrepared);
      }
      StillFinal(old(contract.orders), contract.orders, call);
      if !Contract.Accepts(contract.orders, call) {
        Missed(streams, s.(chain := View()), w);
        return Err(SimulationFailed);
      }
      if env.sending == Lost {
        Missed(streams, s.(chain := View()), w);
        return Err(SendFailed);
      }
      var tx := Submit(call, w, streams, s.(chain := View()));
      if env.sending == Delivered {
        GivenUp(streams, s, w, tx, View());
        return Err(SendFailed);
      }
      r := Await(tx, env.ticks, streams, Advanced(s, w, Some(tx)).(chain := View()));
      if r.Err? {
        GivenUp(streams, s, w, tx, View());
      }
    }

    /** SendTransaction: the call is in flight under the next hash, and its sender waits for it. */
    method Submit(call: Contract.Call, ghost w: string, ghost streams: map<string, string>, ghost s: State)
      returns (tx: TxHash)
      requires Valid() && Reachable(streams, s) && s.chain == View() && Calling(s, w, call)
      modifies this
      ensures Valid() && Reachable(streams, Advanced(s, w, Some(tx)).(chain := View()))
      ensures tx == old(next) && next == old(next) + 1 && tx in inflight && inflight[tx] == call
      ensures View() == Sent(old(View()), call)
    {
      hide Reachable, Permitted, NextCall;
      tx := next;
      ReachStep(streams, s, Step.Send(w));
      inflight, next := inflight[tx := call], next + 1;
      assert Next(s, Step.Send(w)) == Advanced(s, w, Some(tx)).(chain := View());
    }

    /**
     * The polling loop: succeeds when the transaction has, fails when it has, gives up otherwise. Giving up says
     * nothing of the transaction: it may have landed unanswered, or be in flight as it was, and in a silent wait is.
     */
    method Await(tx: TxHash, ticks: seq<Tick>, ghost streams: map<string, string>, ghost s: State)
      returns (r: Result<TxHash, InvokeError>)
      requires Valid() && Reachable(streams, s) && s.chain == View() && tx in inflight
      modifies this, contract
      ensures Valid() && Reachable(streams, s.(chain := View())) && next == old(next)
      ensures (View(), r) == Waited(old(View()), tx, ticks, 0)
      ensures r.Ok? ==> r.value == tx && tx in succeeded && succeeded[tx] == old(inflight[tx])
      ensures forall id :: old(FinalIn(contract.orders, id)) ==> FinalIn(contract.orders, id)
      ensures r == Err(FailedOnLedger) ==> tx !in inflight && tx !in succeeded
      ensures tx in inflight ==> inflight[tx] == old(inflight[tx])
      ensures Silent(ticks) ==> r == Err(TimedOut) && View() == old(View())
      ensures forall i: nat, j: nat :: ToldAt(ticks, i, j) && Alone(ticks, j) ==>
        View() == Landed(old(View()), tx) && (r.Ok? <==> Contract.Accepts(old(contract.orders), old(inflight[tx])))
      ensures forall i: nat, j: nat :: ToldAt(ticks, i, j) ==>
        r == if Contract.Accepts(Aside(old(View()), tx, ticks, i + 1).store, old(inflight[tx])) then Ok(tx)
             else Err(FailedOnLedger)
      ensures forall n: nat :: n < POLLS && TickAt(ticks, n).cancelled && Unanswered(ticks, n) ==> r == Err(Cancelled)
      ensures Unanswered(ticks, POLLS) ==> r == Err(TimedOut)
    {
      hide Reachable, FinalIn, LandedBut, ToldAt, Alone, Unanswered, Silent, Aside;
      WaitEnds(View(), tx, ticks);
      ghost var call := inflight[tx];
      assert s.(chain := View()) == s;
      for i := 0 to POLLS
        invariant Valid() && Reachable(streams, s.(chain := View())) && next == old(next)
        invariant Waited(View(), tx, ticks, i) == Waited(old(View()), tx, ticks, 0)
        invariant tx in inflight ==> inflight[tx] == call
        invariant tx in succeeded ==> succeeded[tx] == call
        invariant forall id :: old(FinalIn(contract.orders, id)) ==> FinalIn(contract.orders, id)
      {
        var tick := TickAt(ticks, i);
        if tick.cancelled {
          return Err(Cancelled);
        }
        OthersLand(View(), tick.others, tx);
        LandAll(tick.others, Some(tx), streams, s.(chain := View()));
        LandIf(tx, tick.own, streams, s.(chain := View()));
        if !tick.answered {
          continue;
        }
        if tx in succeeded {
          return Ok(tx);
        }
        if tx !in inflight {
          return Err(FailedOnLedger);
        }
      }
      return Err(TimedOut);
    }

    /** A transaction lands, if it is to and still in flight. */
    method LandIf(tx: TxHash, lands: bool, ghost streams: map<string, string>, ghost s: State)
      requires Valid() && Reachable(streams, s) && s.chain == View()
      modifies this, contract
      ensures Valid() && Reachable(streams, s.(chain := View())) && next == old(next)
      ensures forall id :: old(FinalIn(contract.orders, id)) ==> FinalIn(contract.orders, id)
      ensures View() == LandedIf(old(View()), tx, lands)
    {
      assert s.(chain := View()) == s;
      if lands && tx in inflight {
        ReachStep(streams, s, Step.Land(tx));
        Land(tx);
        assert Next(s, Step.Land(tx)) == s.(chain := View());
      }
    }
  }
}
