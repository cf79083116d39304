/** Runs that happen: the guarantees of Soundness are met by some state, and so are the failures. */
module Scenarios {
  import opened Wrappers
  import opened Text
  import opened Decimals
  import opened Instruction
  import opened Models
  import opened Backlog
  import opened Matcher
  import opened Horizon
  import opened Ingest
  import opened Protocol
  import opened Safety
  import opened Waits
  import opened Paging
  import opened Sweep
  import opened Runs
  import opened Outlook
  import Contract
  import Strkey

  // --- An order paid, settled and written on chain -----------------------------------------

  /** The record of a payment of some kind that copies the order, made from this account. */
  function ExactPayment(o: OrderIntent, from: string, kind: string): Record
    requires Acceptable(o.expectedAmount)
  {
    Record("1", 1, kind, "", from, o.destinationAccount, "", o.assetCode, o.assetIssuer,
           Fixed7(RoundStroops(o.expectedAmount)), None, o.memo, "text")
  }

  lemma {:induction false} ExactPaymentMatches(o: OrderIntent, from: string, kind: string)
    requires OpeningRow(o)
    ensures Match(Observe(Flatten(ExactPayment(o, from, kind))), Some(o)) ==
      if from == o.buyerWallet then (VerdictMatched, NoReason) else (VerdictRejected, WrongBuyerWallet)
  {
    var n := RoundStroops(o.expectedAmount);
    ParseFixed7(n);
    RoundExact(o.expectedAmount);
    RoundExact(Decimal(n, -7));
    MatchMeaning(Observe(Flatten(ExactPayment(o, from, kind))), Some(o));
  }

  /** One reachable step, with the state it leads to. */
  lemma {:induction false} Take(streams: map<string, string>, s: State, step: Step) returns (t: State)
    requires Reachable(streams, s) && Enabled(s, step)
    ensures t == Next(s, step) && Reachable(streams, t)
  {
    ReachStep(streams, s, step);
    t := Next(s, step);
  }

  /** The order is in the table and its payment on the ledger. */
  lemma {:induction false} Awaiting(w: string, stream: string, o: OrderIntent, from: string, kind: string)
    returns (s: State)
    requires OpeningRow(o)
    ensures Reachable(map[w := stream], s)
    ensures s == Init(map[w := stream]).(raw := [ExactPayment(o, from, kind)], db := Db(map[o.id := o], [], map[]),
      log := [Created(o)])
  {
    hide Reachable;
    ReachInit(map[w := stream]);
    s := Take(map[w := stream], Init(map[w := stream]), Create(o));
    s := Take(map[w := stream], s, Append(ExactPayment(o, from, kind)));
  }

  lemma {:induction false} OnePage(r: Record)
    requires r.token == 1 && IsPayment(r)
    ensures Payments(Page([r], 0, PAGE_LIMIT)) == [Flatten(r)]
  {
    assert [r][..0] == [];
    assert Covered([r], 0) == 0;
  }

  /** The order is settled by a payment from this account, and its watcher is about to write it. */
  ghost predicate JustSettled(s: State, w: string, o: OrderIntent, from: string) {
    && s.watchers.Keys == {w} && s.watchers[w].job == Some(Job(o.id, 0, false)) && s.watchers[w].wait == None
    && s.db.orders == map[o.id :=
         if from == o.buyerWallet then o.(status := Validated) else o.(status := Rejected,
           rejectReason := WrongBuyerWallet)]
    && s.chain == EMPTY_CHAIN && s.acked == {}
  }

  /** Created, paid, and ingested by the one watcher. */
  lemma {:induction false} PaidOrder(w: string, stream: string, o: OrderIntent, from: string, kind: string)
    returns (s: State)
    requires OpeningRow(o) && IsPayment(ExactPayment(o, from, kind))
    ensures Reachable(map[w := stream], s) && JustSettled(s, w, o, from) && s.raw == [ExactPayment(o, from, kind)]
  {
    hide Reachable, Payments, Page, Match, Flatten;
    var streams := map[w := stream];
    s := Awaiting(w, stream, o, from, kind);
    OnePage(ExactPayment(o, from, kind));
    ExactPaymentMatches(o, from, kind);
    PaymentFields(o, from, kind);
    s := Take(streams, s, Poll(w, false));
    s := Take(streams, s, Lookup(w));
    s := Take(streams, s, Commit(w));
  }

  lemma {:induction false} PaymentFields(o: OrderIntent, from: string, kind: string)
    requires Acceptable(o.expectedAmount)
    ensures var p := Flatten(ExactPayment(o, from, kind)); p.memo == o.memo && p.id == "1"
  {}

  /** An order paid through a path payment, to the letter, is validated like any other. */
  lemma {:induction false} PathPaymentValidates(w: string, stream: string, o: OrderIntent) returns (s: State)
    requires OpeningRow(o)
    ensures Reachable(map[w := stream], s)
    ensures s.raw == [ExactPayment(o, o.buyerWallet, "path_payment_strict_receive")]
    ensures s.db.orders == map[o.id := o.(status := Validated)]
  {
    hide Reachable;
    PathKind(o, o.buyerWallet);
    s := PaidOrder(w, stream, o, o.buyerWallet, "path_payment_strict_receive");
  }

  lemma {:induction false} PathKind(o: OrderIntent, from: string)
    requires Acceptable(o.expectedAmount)
    ensures IsPayment(ExactPayment(o, from, "path_payment_strict_receive"))
  {
    assert "path_payment_strict_receive"[..12] == "path_payment";
  }

  /** Validated and fulfillable, and watcher w is about to be told of it. */
  ghost predicate OnChain(s: State, id: string, w: string, tx: TxHash) {
    && Unsynced(s.db.orders, id) && Contract.Fulfillable(s.chain.store, id)
    && Carried(s.db.orders, s.chain, id, tx) && s.watchers.Keys == {w}
    && s.watchers[w].wait == Some(tx) && s.watchers[w].job.Some? && !s.watchers[w].job.value.retry
  }

  /** On an empty registry the three calls are accepted one after the other. */
  lemma {:induction false} ThreeAccepted(o: OrderIntent)
    requires Judged(o)
    ensures var s1 := Contract.Apply(map[], OpenCall(o));
            var s2 := Contract.Apply(s1, DetectCall(o.id));
            && Contract.Accepts(s2, VerdictCall(o))
            && (o.status == Validated ==> Contract.Fulfillable(Contract.Apply(s2, VerdictCall(o)), o.id))
  {}

  /** The three calls, one after the other. */
  lemma {:induction false} WrittenOrder(w: string, stream: string, o: OrderIntent) returns (s: State, tx: TxHash)
    requires OpeningRow(o) && Strkey.Decodes(o.buyerWallet)
    ensures Reachable(map[w := stream], s) && OnChain(s, o.id, w, tx)
  {
    hide Reachable, Strkey.Decodes, Contract.Apply, Contract.Accepts, Contract.Fulfillable, OpenCall, VerdictCall,
      Permitted, Leads,
      IsVerdictCall;
    var streams, id := map[w := stream], o.id;
    s := PaidOrder(w, stream, o, o.buyerWallet, "payment");
    ThreeAccepted(s.db.orders[id]);
    ReadyToCall(streams, s, w, id);
    var a := MakeCall(s, w);
    LeadsReach(streams, s, a);
    ReadyToCall(streams, a, w, id);
    var b := MakeCall(a, w);
    LeadsReach(streams, a, b);
    ReadyToCall(streams, b, w, id);
    WritableRow(streams, b, id);
    tx := b.chain.next;
    s := SendAndLand(b, w);
    LeadsReach(streams, b, s);
  }

  /** For every order whose wallet decodes, a run ends with it fulfillable and its hash in Postgres. */
  lemma {:induction false} FulfilledOrder(w: string, stream: string, o: OrderIntent) returns (s: State)
    requires OpeningRow(o) && Strkey.Decodes(o.buyerWallet)
    ensures Reachable(map[w := stream], s) && Contract.Fulfillable(s.chain.store, o.id)
    ensures o.id in s.db.orders && s.db.orders[o.id].onChainTxHash.Some?
  {
    hide Reachable, Contract.Fulfillable, Strkey.Decodes, WaitsOk;
    var tx;
    s, tx := WrittenOrder(w, stream, o);
    ReachableWaits(map[w := stream], s);
    WaitMeans(s, w);
    s := Take(map[w := stream], s, SaveHash(w, true));
  }

  /**
   * And others, where the save fails or the process crashes first, with the same chain entry, no hash, and no way to
   * one.
   */
  lemma {:induction false} LostAcknowledgement(w: string, stream: string, o: OrderIntent, crash: bool)
    returns (s: State)
    requires OpeningRow(o) && Strkey.Decodes(o.buyerWallet)
    ensures Reachable(map[w := stream], s) && Contract.Fulfillable(s.chain.store, o.id)
    ensures Unsynced(s.db.orders, o.id) && !Recoverable(s, o.id)
  {
    hide Reachable, Strkey.Decodes, WaitsOk, IsVerdictCall;
    var streams, tx := map[w := stream], 0;
    s, tx := WrittenOrder(w, stream, o);
    ReachableWaits(streams, s);
    WaitMeans(s, w);
    s := Take(streams, s, if crash then Crash(w, stream) else SaveHash(w, false));
    NobodyFinishes(s, w, o.id);
    assert Shut(s, o.id);
    NoRecovery(streams, s, o.id);
  }

  lemma {:induction false} NobodyFinishes(s: State, w: string, id: string)
    requires s.watchers.Keys == {w} && s.watchers[w].job == None
    ensures !Finishing(s, id)
  {}

  lemma {:induction false} NoRecovery(streams: map<string, string>, s: State, id: string)
    requires Reachable(streams, s) && Shut(s, id)
    ensures !Recoverable(s, id)
  {
    hide Reachable, Finishing, Registrable, Upcoming, Blockers;
    forall run | Legal(s, run) ensures Unsynced(Exec(s, run).db.orders, id) { ShutForever(streams, s, run, id); }
  }

  lemma {:induction false} OneStroop()
    ensures Acceptable(Decimal(1, -7))
  {
    RoundExact(Decimal(1, -7));
    assert Pow10(0) == 1;
  }

  /** Some order can be created for whose wallet all this happens. */
  lemma {:induction false} SomeOrder(c: StellarConfig, id: string)
    requires ValidMemo(id)
    ensures var r := NewOrder(c, id, "", Decimal(1, -7), Strkey.GoodAddress(), 0);
            r.Ok? && OpeningRow(r.value.0) && Strkey.Decodes(r.value.0.buyerWallet)
  {
    hide Strkey.Decodes;
    OneStroop();
    Strkey.GoodDecodes();
    NewOrderOpens(c, id, "", Decimal(1, -7), Strkey.GoodAddress(), 0);
  }

  // --- An order that never gets on chain ----------------------------------------------------

  /**
   * The server accepts an order for a wallet of the right shape outside the alphabet. Somebody pays it, so it is
   * refused for the wrong wallet; and no run ever registers it.
   */
  lemma {:induction false} UnregistrableOrder(w: string, stream: string, c: StellarConfig, id: string)
      returns (s: State)
    requires ValidMemo(id)
    ensures var r := NewOrder(c, id, "", Decimal(1, -7), Strkey.BadAddress(), 0);
            r.Ok? && Reachable(map[w := stream], s) && JustSettled(s, w, r.value.0, Strkey.GoodAddress())
              && Unsynced(s.db.orders, id)
    ensures s.db.orders[id].status == Rejected && s.db.orders[id].rejectReason == WrongBuyerWallet
    ensures forall run :: Legal(s, run) ==> Unsynced(Exec(s, run).db.orders, id) && id !in Exec(s, run).chain.store
  {
    hide Strkey.Decodes, Reachable, Legal, Exec;
    OneStroop();
    Strkey.BadDoesNotDecode();
    Strkey.GoodDecodes();
    NewOrderOpens(c, id, "", Decimal(1, -7), Strkey.BadAddress(), 0);
    var streams := map[w := stream];
    s := PaidOrder(w, stream, NewOrder(c, id, "", Decimal(1, -7), Strkey.BadAddress(), 0).value.0,
      Strkey.GoodAddress(), "payment");
    forall run | Legal(s, run) ensures Unsynced(Exec(s, run).db.orders, id) && id !in Exec(s, run).chain.store {
      UndecodableStays(streams, s, run, id);
    }
  }

  // --- A ledger that stalls the watcher ------------------------------------------------------

  /** Record i of a ledger that opens with account creations and goes on with payments. */
  function QuietRecord(i: nat, quiet: nat): Record {
    Record(Digits(i), i + 1, if i < quiet then "create_account" else "payment", "", "", "", "", "", "", "", None, "",
      "none")
  }

  lemma {:induction false} QuietKind(i: nat, quiet: nat)
    ensures IsPayment(QuietRecord(i, quiet)) <==> i >= quiet
  {
    assert "create_account"[0] != "path_payment"[0];
  }

  function QuietLedger(quiet: nat, n: nat): (raw: seq<Record>)
    ensures |raw| == n && forall i :: 0 <= i < n ==> raw[i] == QuietRecord(i, quiet)
  {
    seq(n, i requires 0 <= i < n => QuietRecord(i, quiet))
  }

  lemma {:induction false} QuietLedgerOk(quiet: nat, n: nat)
    ensures LedgerOk(QuietLedger(quiet, n))
  {
    var raw := QuietLedger(quiet, n);
    forall i, j | 0 <= i < j < n ensures raw[i].id != raw[j].id {
      ToNatDigits(i);
      ToNatDigits(j);
    }
  }

  lemma {:induction false} QuietLedgerReached(streams: map<string, string>, quiet: nat, n: nat) returns (s: State)
    ensures Reachable(streams, s) && s == Init(streams).(raw := QuietLedger(quiet, n))
  {
    hide Reachable, LedgerOk;
    if n == 0 {
      ReachInit(streams);
      s := Init(streams);
    } else {
      s := QuietLedgerReached(streams, quiet, n - 1);
      QuietLedgerOk(quiet, n);
      assert QuietLedger(quiet, n) == QuietLedger(quiet, n - 1) + [QuietRecord(n - 1, quiet)];
      s := Take(streams, s, Append(QuietRecord(n - 1, quiet)));
    }
  }

  /**
   * For every page size there is a reachable ledger of that many account creations and one payment: from the
   * empty cursor, no number of polls ever moves it, and the payment stays pending.
   */
  lemma {:induction false} StalledLedger(streams: map<string, string>, limit: nat) returns (s: State)
    requires limit > 0
    ensures Reachable(streams, s) && Gap(s.raw, 0, limit) && |Payments(s.raw)| > 0
    ensures forall n: nat :: PolledTimes(s.raw, 0, limit, n) == 0 && Pending(s.raw, PolledTimes(s.raw, 0, limit, n)) > 0
  {
    hide Reachable, Payments;
    s := QuietLedgerReached(streams, limit, limit + 1);
    QuietLedgerOk(limit, limit + 1);
    var raw := s.raw;
    QuietKind(limit, limit);
    forall k | 0 <= k < limit ensures !IsPayment(raw[k]) { QuietKind(k, limit); }
    assert raw == raw + [];
    CoveredNothing(raw);
    assert raw[0..] == raw;
    NoPayments(raw);
    forall n: nat ensures PolledTimes(raw, 0, limit, n) == 0 {
      StallIsPermanent(raw, [], 0, limit, n);
    }
  }

  // --- A process that starves an order ---------------------------------------------------------

  const YOUNG := "young"

  /** Twenty orders created at second 0 for a wallet that does not decode, and one at second 1 for one that does. */
  function Name(i: nat): string { if i < WINDOW then Digits(i) else YOUNG }

  function Placed(i: nat): OrderIntent {
    OrderIntent(Name(i), "", Decimal(1, -7), "USDC", Strkey.GoodAddress(), Strkey.GoodAddress(), Name(i),
                if i < WINDOW then Strkey.BadAddress() else Strkey.GoodAddress(), AwaitingPayment, NoReason, None,
                  if i < WINDOW then 0 else 1)
  }

  /** Each is paid in an asset it did not ask for. */
  function WrongPayment(i: nat): Record {
    Record(Digits(i), i + 1, "payment", "", Strkey.GoodAddress(), Strkey.GoodAddress(), "credit_alphanum4", "EURC",
           Strkey.GoodAddress(), "0.0000001", None, Name(i), "text")
  }

  function Refused(i: nat): OrderIntent { Placed(i).(status := Rejected, rejectReason := WrongAsset) }

  function WrongLedger(n: nat): (raw: seq<Record>)
    ensures |raw| == n && forall i :: 0 <= i < n ==> raw[i] == WrongPayment(i)
  {
    seq(n, i requires 0 <= i < n => WrongPayment(i))
  }

  function Table(n: nat): Orders { if n == 0 then map[] else Table(n - 1)[Name(n - 1) := Refused(n - 1)] }

  function Elders(): (rows: seq<OrderIntent>)
    ensures |rows| == WINDOW && forall i :: 0 <= i < WINDOW ==> rows[i] == Refused(i)
  {
    seq(WINDOW, i requires 0 <= i < WINDOW => Refused(i))
  }

  lemma {:induction false} OwnName(i: nat, j: nat)
    requires i < j <= WINDOW
    ensures Name(i) != Name(j) && Name(i) != ""
  {
    hide Digits, ToNat;
    ToNatDigits(i);
    ToNatDigits(j);
    assert IsDigit(Digits(i)[0]) && !IsDigit(YOUNG[0]);
  }

  /** The first n names are those of the table, each with its own row. */
  lemma {:induction false} TableRows(n: nat, i: nat)
    requires n <= WINDOW + 1
    ensures i < n ==> Name(i) in Table(n) && Table(n)[Name(i)] == Refused(i)
    ensures n <= i <= WINDOW ==> Name(i) !in Table(n)
  {
    hide Name, Refused;
    if n > 0 {
      TableRows(n - 1, i);
      if i < n - 1 { OwnName(i, n - 1); }
      if n - 1 < i <= WINDOW { OwnName(n - 1, i); }
    }
  }

  lemma {:induction false} OwnDigits(i: nat, j: nat)
    requires i < j
    ensures Digits(i) != Digits(j)
  {
    ToNatDigits(i);
    ToNatDigits(j);
  }

  lemma {:induction false} WrongLedgerOk(n: nat)
    ensures LedgerOk(WrongLedger(n))
  {
    var raw := WrongLedger(n);
    forall i, j | 0 <= i < j < n ensures raw[i].id != raw[j].id { OwnDigits(i, j); }
  }

  /** A cursor on record n - 1, and one more record: the next page holds just that one. */
  lemma {:induction false} WrongPage(n: nat)
    ensures Payments(Page(WrongLedger(n + 1), n, PAGE_LIMIT)) == [Flatten(WrongPayment(n))]
  {
    var raw := WrongLedger(n + 1);
    CoveredSplit(raw, n, n);
    assert raw[n..n + 1] == [WrongPayment(n)];
    assert [WrongPayment(n)][..0] == [];
  }

  /** The first n orders were placed, paid wrongly and refused, and none was written; the watcher is idle. */
  ghost predicate RefusedSoFar(s: State, w: string, stream: string, n: nat) {
    && s.raw == WrongLedger(n) && s.db.orders == Table(n) && s.chain == EMPTY_CHAIN && s.acked == {} && AllSeen(s)
    && |s.db.evidence| == n && (forall j :: 0 <= j < n ==> s.db.evidence[j].opId == Digits(j))
    && Cursor(s.db, stream) == n && s.watchers == map[w := Booted(stream).(caught := n > 0)]
  }

  lemma {:induction false} PlacedOpens(i: nat)
    requires i <= WINDOW
    ensures OpeningRow(Placed(i))
  {
    OneStroop();
    ToNatDigits(i);
    hide Digits, ToNat, Acceptable;
  }

  lemma {:induction false} WrongIsRefused(n: nat, orders: Orders)
    requires n <= WINDOW && Name(n) in orders && orders[Name(n)] == Placed(n)
    ensures var p := Flatten(WrongPayment(n));
            && FindByMemo(orders, p.memo) == Some(Placed(n))
            && OrdersAfter(orders, p, Some(Placed(n))) == orders[Name(n) := Refused(n)]
            && Settles(orders, p, Some(Placed(n)))
  {
    PlacedOpens(n);
    WrongAssetMatch(n);
    hide Digits, Strkey.GoodAddress, Strkey.BadAddress, Acceptable, Match, Fixed7;
  }

  lemma {:induction false} WrongAssetMatch(n: nat)
    ensures Match(Observe(Flatten(WrongPayment(n))), Some(Placed(n))) == (VerdictRejected, WrongAsset)
  {
    hide Digits, LessThan, Strkey.GoodAddress, Strkey.BadAddress, NewFromString;
    assert "EURC" != "USDC";
  }

  /** One more order placed and paid. */
  lemma {:induction false} PlaceNext(w: string, stream: string, s: State, n: nat) returns (t: State)
    requires n <= WINDOW && Reachable(map[w := stream], s) && RefusedSoFar(s, w, stream, n)
    ensures Reachable(map[w := stream], t) && t.raw == WrongLedger(n + 1)
    ensures t.db == s.db.(orders := Table(n)[Name(n) := Placed(n)])
    ensures t.watchers == s.watchers && t.chain == s.chain && t.acked == s.acked
  {
    hide Reachable, Digits, OpeningRow, LedgerOk, Name, WrongPayment, Placed, AllSeen;
    TableRows(n, n);
    PlacedOpens(n);
    PlacedName(n);
    t := Take(map[w := stream], s, Create(Placed(n)));
    WrongLedgerOk(n + 1);
    assert WrongLedger(n + 1) == WrongLedger(n) + [WrongPayment(n)];
    t := Take(map[w := stream], t, Append(WrongPayment(n)));
  }

  /** The watcher has the next payment at hand, with the order it is for. */
  ghost predicate AboutToRefuse(s: State, w: string, stream: string, n: nat, at: nat) {
    s.watchers ==
      map[w := Booted(stream).(caught := true, page := [Flatten(WrongPayment(n))],
        read := Some(Read(Some(Placed(n)), at)))]
  }

  /** The page that holds its payment, looked up. */
  lemma {:induction false} ReadNext(w: string, stream: string, s: State, n: nat, caught: bool) returns (t: State)
    requires n <= WINDOW && Reachable(map[w := stream], s) && s.raw == WrongLedger(n + 1) && Cursor(s.db, stream) == n
    requires s.watchers == map[w := Booted(stream).(caught := caught)]
    requires Name(n) in s.db.orders && s.db.orders[Name(n)] == Placed(n)
    ensures Reachable(map[w := stream], t) && t.raw == s.raw && t.db == s.db && t.chain == s.chain && t.acked == s.acked
    ensures exists at: nat :: AboutToRefuse(t, w, stream, n, at)
  {
    hide Reachable, Payments, Page, Flatten, Name, Placed, WrongPayment, FindByMemo;
    WrongPage(n);
    WrongIsRefused(n, s.db.orders);
    t := Take(map[w := stream], s, Poll(w, false));
    assert t.watchers == map[w := Booted(stream).(caught := true, page := [Flatten(WrongPayment(n))])];
    t := Take(map[w := stream], t, Lookup(w));
    assert AboutToRefuse(t, w, stream, n, |s.log|);
  }

  /** Its commit, after which the watcher is about to write it. */
  lemma {:induction false} CommitNext(w: string, stream: string, s: State, n: nat, at: nat) returns (t: State)
    requires n <= WINDOW && Reachable(map[w := stream], s) && AboutToRefuse(s, w, stream, n, at)
    requires Name(n) in s.db.orders && s.db.orders[Name(n)] == Placed(n) && !Seen(s.db.evidence, Digits(n))
    ensures Reachable(map[w := stream], t) && t.raw == s.raw && t.chain == s.chain && t.acked == s.acked
    ensures t.db.orders == s.db.orders[Name(n) := Refused(n)] && t.db.cursors == s.db.cursors[stream := n + 1]
    ensures |t.db.evidence| == |s.db.evidence| + 1 && s.db.evidence <= t.db.evidence
      && t.db.evidence[|s.db.evidence|].opId == Digits(n)
    ensures t.watchers == map[w := Booted(stream).(caught := true, job := Some(Job(Name(n), 0, false)))]
  {
    hide Reachable, Digits, Flatten, Name, Placed, WrongPayment, OrdersAfter, EvidenceOf, Settles, Seen;
    WrongIsRefused(n, s.db.orders);
    FlatWrong(n);
    PlacedName(n);
    assert s.watchers[w].page[0] == Flatten(WrongPayment(n)) && s.watchers[w].page[1..] == [];
    t := Take(map[w := stream], s, Commit(w));
  }

  /** One more order placed, paid, refused, and not written for want of a connection. */
  lemma {:induction false} RefuseNext(w: string, stream: string, s: State, n: nat) returns (t: State)
    requires n <= WINDOW && Reachable(map[w := stream], s) && RefusedSoFar(s, w, stream, n)
    ensures Reachable(map[w := stream], t) && RefusedSoFar(t, w, stream, n + 1)
  {
    hide Reachable, Digits, Flatten, Name, Placed, WrongPayment, OrdersAfter, EvidenceOf, Leads, AllSeen, Settles,
      Payments;
    t := PlaceNext(w, stream, s, n);
    WrongIsRefused(n, t.db.orders);
    NewOperation(s.db.evidence, n);
    FlatWrong(n);
    PlacedName(n);
    var orders := t.db.orders;
    t := ReadNext(w, stream, t, n, n > 0);
    var at: nat :| AboutToRefuse(t, w, stream, n, at);
    var u := CommitNext(w, stream, t, n, at);
    t := FailedWrite(u, w);
    LeadsReach(map[w := stream], u, t);
    assert t.db.orders == orders[Name(n) := Refused(n)]
      && orders[Name(n) := Refused(n)] == Table(n)[Name(n) := Refused(n)];
    assert t.watchers == map[w := Booted(stream).(caught := true)];
    NowSeen(s, t, n);
  }

  lemma {:induction false} PlacedName(n: nat)
    ensures Placed(n).id == Name(n)
  {}

  lemma {:induction false} FlatWrong(n: nat)
    ensures var p := Flatten(WrongPayment(n)); p.id == Digits(n) && p.token == n + 1
    ensures forall copy :: EvidenceOf(Flatten(WrongPayment(n)), copy).opId == Digits(n)
  {
    hide Digits, Match;
  }

  lemma {:induction false} NewOperation(evidence: seq<PaymentEvidence>, n: nat)
    requires |evidence| == n && forall j :: 0 <= j < n ==> evidence[j].opId == Digits(j)
    ensures !Seen(evidence, Digits(n))
  {
    forall j | 0 <= j < n ensures evidence[j].opId != Digits(n) { OwnDigits(j, n); }
  }

  lemma {:induction false} NowSeen(s: State, t: State, n: nat)
    requires AllSeen(s) && s.raw == WrongLedger(n) && t.raw == WrongLedger(n + 1)
    requires s.db.evidence <= t.db.evidence && |t.db.evidence| == |s.db.evidence| + 1
    requires t.db.evidence[|s.db.evidence|].opId == Digits(n)
    ensures AllSeen(t)
  {
    hide Payments, Flatten;
    assert t.raw == s.raw + [WrongPayment(n)];
    PaymentsAppend(s.raw, WrongPayment(n));
    FlatWrong(n);
    forall p | p in Payments(t.raw) ensures Seen(t.db.evidence, p.id) {
      if p in Payments(s.raw) {
        var j :| 0 <= j < |s.db.evidence| && s.db.evidence[j].opId == p.id;
        assert t.db.evidence[j].opId == p.id;
      } else {
        assert p == Flatten(WrongPayment(n));
      }
    }
  }

  lemma {:induction false} RefuseAll(w: string, stream: string, n: nat) returns (s: State)
    requires n <= WINDOW + 1
    ensures Reachable(map[w := stream], s) && RefusedSoFar(s, w, stream, n)
  {
    hide Reachable;
    if n == 0 {
      ReachInit(map[w := stream]);
      s := Init(map[w := stream]);
    } else {
      hide RefusedSoFar;
      s := RefuseAll(w, stream, n - 1);
      s := RefuseNext(w, stream, s, n - 1);
    }
  }

  /** The twenty oldest are what the query returns. */
  lemma {:induction false} EldersFound()
    ensures IsSweepQuery(Table(WINDOW + 1), Elders())
  {
    hide Table, Digits, Strkey.GoodAddress, Strkey.BadAddress;
    var orders, rows := Table(WINDOW + 1), Elders();
    forall i: int | 0 <= i < |rows| ensures Unsynced(orders, rows[i].id) && rows[i] == orders[rows[i].id]
      && rows[i].createdAt == 0 {
      TableRows(WINDOW + 1, i);
    }
    forall i: int, j: int | 0 <= i < j < |rows| ensures rows[i].id != rows[j].id { OwnName(i, j); }
    hide Refused, Has;
  }

  /** Sweep after sweep, each over these twenty rows and each in vain, until all are exhausted. */
  lemma {:induction false} ExhaustAll(w: string, stream: string) returns (s: State)
    ensures Reachable(map[w := stream], s) && AtRow(s, w, Elders(), WINDOW) && s.watchers.Keys == {w}
    ensures s.db.orders == Table(WINDOW + 1) && s.chain == EMPTY_CHAIN
    ensures forall i: nat :: i < WINDOW ==> Exhausted(s.watchers[w].failed, Elders()[i].id)
    ensures forall id :: id !in Ids(Elders()) ==> Count(s.watchers[w].failed, id) == 0
  {
    hide Reachable, AllSeen, LedgerOk, IsSweepQuery, Leads, Table, Elders, Ids;
    var a := RefuseAll(w, stream, WINDOW + 1);
    WrongLedgerOk(WINDOW + 1);
    EldersFound();
    var b := SweepAgain(a, w, Elders());
    AloneSeen(a, b, w);
    s := Walk(b, w, Elders(), 0, WINDOW);
    AloneThen(a, b, s, w);
    LeadsReach(map[w := stream], a, s);
    assert Ids(Elders())[..WINDOW] == Ids(Elders());
  }

  ghost function ElderIds(n: nat): (ids: set<string>) { set i | 0 <= i < n :: Name(i) }

  lemma {:induction false} ElderCount(n: nat)
    requires n <= WINDOW
    ensures |ElderIds(n)| == n
  {
    hide Name;
    if n > 0 {
      ElderCount(n - 1);
      forall i: nat | i < n - 1 ensures Name(i) != Name(n - 1) { OwnName(i, n - 1); }
      assert ElderIds(n) == ElderIds(n - 1) + {Name(n - 1)};
    }
  }

  /** The twenty stand in front of the young one: exhausted here, and beyond help anywhere. */
  lemma {:induction false} EldersBlock(s: State, w: string)
    requires s.db.orders == Table(WINDOW + 1) && s.chain == EMPTY_CHAIN && s.watchers.Keys == {w}
      && s.watchers[w].job == None
    requires forall i: nat :: i < WINDOW ==> Exhausted(s.watchers[w].failed, Elders()[i].id)
    requires !Exhausted(s.watchers[w].failed, YOUNG)
    ensures Blocked(s.db.orders, s.watchers[w].failed, YOUNG, ElderIds(WINDOW))
    ensures Registrable(s, YOUNG) && |Blockers(s, YOUNG)| >= WINDOW
  {
    hide Digits, Strkey.Decodes;
    ElderCount(WINDOW);
    TableRows(WINDOW + 1, WINDOW);
    Strkey.GoodDecodes();
    Strkey.BadDoesNotDecode();
    hide Table;
    forall k | k in ElderIds(WINDOW)
      ensures Exhausted(s.watchers[w].failed, k) && k in Older(s.db.orders, YOUNG) && !Registrable(s, k)
        && !Finishing(s, k)
    {
      var i: nat :| i < WINDOW && Name(i) == k;
      TableRows(WINDOW + 1, i);
      assert Elders()[i].id == k;
      NobodyFinishes(s, w, k);
    }
    hide Registrable, Finishing;
    assert ElderIds(WINDOW) <= Blockers(s, YOUNG);
    SubsetSize(ElderIds(WINDOW), Blockers(s, YOUNG));
    assert ElderIds(WINDOW) <= ExhaustedIds(s.db.orders, s.watchers[w].failed);
  }

  /**
   * A run of one watcher reaches a state where twenty refused orders, for a wallet no client can decode, were tried
   * three times each by sweeps, and a younger one only right after its settlement. That one could be registered; but
   * no sweep this process goes on to make tries it, and no run at all, with whatever restarts, gives it a hash.
   */
  lemma {:induction false} StarvedOrder(w: string, stream: string) returns (s: State)
    ensures Reachable(map[w := stream], s) && w in s.watchers
    ensures Blocked(s.db.orders, s.watchers[w].failed, YOUNG, ElderIds(WINDOW))
      && Count(s.watchers[w].failed, YOUNG) == 0
    ensures Registrable(s, YOUNG) && !Recoverable(s, YOUNG)
    ensures forall sweeps: seq<Sweeping>, i: nat ::
      SweepRun(s.db.orders, [], s.watchers[w].failed, sweeps) && i < |sweeps| ==>
      YOUNG !in TriedIds(sweeps[i].tries)
  {
    hide Reachable, Blocked, Table, SweepRun, TriedIds, ElderIds, Registrable, Finishing, Blockers, Recoverable;
    s := ExhaustAll(w, stream);
    YoungApart();
    EldersBlock(s, w);
    NobodyFinishes(s, w, YOUNG);
    BlockedWaits(s, w);
    assert !Upcoming(s, YOUNG);
    NoRecovery(map[w := stream], s, YOUNG);
    forall sweeps: seq<Sweeping>, i: nat | SweepRun(s.db.orders, [], s.watchers[w].failed, sweeps) && i < |sweeps|
      ensures YOUNG !in TriedIds(sweeps[i].tries)
    {
      StarvedForever(s.db.orders, [], s.watchers[w].failed, sweeps, YOUNG, ElderIds(WINDOW));
    }
  }

  lemma {:induction false} BlockedWaits(s: State, w: string)
    requires w in s.watchers && Blocked(s.db.orders, s.watchers[w].failed, YOUNG, ElderIds(WINDOW))
    ensures Unsynced(s.db.orders, YOUNG)
  {}

  lemma {:induction false} YoungApart()
    ensures YOUNG !in Ids(Elders())
  {
    hide Digits;
    forall i: nat | i < WINDOW ensures Elders()[i].id != YOUNG { OwnName(i, WINDOW); }
  }
}
