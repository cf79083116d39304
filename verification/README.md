# Shopble reconciliation model

Shopble accepts a stablecoin payment for one specific order and claims that the order counts as fulfillable
only if a payment on the ledger satisfied it, with Postgres as the record and a Soroban contract as a verifiable
copy. This project models the path that claim takes, from the Horizon payments stream through the watcher's
database transactions to the contract calls, and proves it over every run: crashes, replays, cursor rewinds,
aborted transactions, lost acknowledgements, transactions that land late, twice-sent or never, and several
watchers interleaving.

`dafny verify dfyconfig.toml` checks the whole project.

## How it is built

- **The protocol** (`Protocol`) is a labelled transition system: the raw ledger, the database, any number of
  watchers, and the contract with its transactions in flight. It keeps the program's schedule. A database
  transaction is two steps, lookup and commit, so that commits on stale copies are part of every run. A watcher
  writes to the chain only the order it just settled or the one its sweep is trying, with the three calls in order,
  each sent or missed, and one wait at a time that only an acknowledgement, giving up or a crash ends. A sweep follows
  a poll that read less than a page, takes what its query returned row by row, and tries at most five, so that tries
  of orders another process has synced meanwhile are part of every run too. `Safety` states the invariant, `Steps`
  proves that every step keeps it, and `Soundness` reads the end-to-end guarantees off it.
- **Prospects** (`Waits`, `Runs`, `Outlook`): who can still be told of a verdict, which runs the program can make,
  and exactly when an order without a hash can still get one. `Backlog` holds the sweep query.
- **The simple machine** (`Settlement`) takes one payment at a time, once, in one step. Its verdicts have a
  closed form. `Ingestion` proves that a single watcher refines it.
- **The running program** (`Horizon.Server`, `Database.Tables`, `Contract.OrderStatusContract`, `Client.Network`,
  `Watcher.Process`) is imperative, as the source is. A `Process` carries a ghost copy of the protocol state that
  `Valid()` keeps equal to the real fields and reachable, so every theorem about reachable states holds of the
  objects after every method. What its methods do under given outcomes of statements and calls is written as functions
  in `Effects` and `Client`, and what those amount to is proved there.
- **Repeated work** (`Paging`, `Sweep`, `Recovery`) proves when polls ingest everything, when sweeps come to rest,
  and which orders they bring on chain. `Watcher.Process.Start` runs it, with ledger records and new orders arriving
  between the rounds.
- **Money and codecs** (`Decimals`, `Instruction`, `Validation`, `ScVal`) are exact: decimals, fixed-7 strings,
  stroops, 128-bit halves, status encodings. `Strkey` decodes account addresses as SEP-0023 lays them down. `Text`
  and `Sums` hold helpers.
- **Views** (`Comparison`, `Report`) are proved to agree with the stored state, or exactly when they do.
- **Runs that happen** (`Scenarios`) show reachable states at the ends of the theorems: an order fulfilled with its
  hash saved, one validated by a path payment, one whose hash is lost, one that can never be registered, a ledger that
  stalls the watcher, and a
  process that starves an order.

## Where the code does less than it says

Each of these is proved of the model, with the exact condition.

- **Paging can stall for good.** The cursor moves only past payments, so `limit` consecutive records without one
  (account creations, merges) pin it, and no later record helps (`Paging.StallIsPermanent`; for every `limit`,
  `Scenarios.StalledLedger` is a reachable ledger that does so). Repeated polls ingest every payment if and only
  if no such gap lies before a later payment (`Paging.PollsReachTheEnd`, `Ingestion.CaughtUp`). For the same
  reason, fewer than `limit` payments in a page does not mean that the tip of the ledger was reached.
- **A lost acknowledgement is never recovered.** Once the verdict landed, the contract refuses every later call, so
  the hash can come only through the one process whose call it was, while that still waits for it. If it stopped
  waiting, crashed, or could not save the hash, no run ever gives the order one (`Waits.LostHashStaysLost`), and it
  stays in `OnChainMissing` although its chain entry is right; `Scenarios.LostAcknowledgement` reaches such states.
  Each method of `Watcher.Process`, up to `Start`, ensures that an order without a hash over a final entry stays one.
- **The compare view can hide an underpayment** of at most half a stroop, because both columns are rounded to
  seven places. Stellar amounts have seven places, so no payment on the ledger is such an input.
- **`toAmount` and `stroops` are inverse** on `v` if and only if `v >= 0` or `v <= -1000000`: a small negative
  prints as `0.00000-1` and the like.
- **The form's cap is a double.** `validateAmount` lets exactly 193 stroop counts above the int64 ceiling
  through; the server refuses them.
- **Twenty old orders starve every younger one.** The sweep query returns the twenty oldest orders without a hash.
  Behind twenty exhausted ones an order is not tried by this process, however long it runs and whatever arrives
  meanwhile (`Watcher.Process.Start`). Behind twenty that can never get their hash, because their wallet does not
  decode or their hash is lost, an order whose first write failed gets no hash from any process, through any restart
  (`Outlook.ShutForever`). `Scenarios.StarvedOrder` reaches a state with both. Conversely, a sweep that tries
  nothing while an order is left to try found twenty exhausted ones, none of them younger (`Sweep.StarvedMeans`); with
  fewer than twenty orders stuck enough rounds without faults leave only those without a hash
  (`Watcher.Process.Start`).
- **An order for an undecodable wallet never gets on chain.** `validAccount` checks shape only, while the client
  registers no order whose wallet is not a decodable address: in every reachable state such an order has no entry and
  no hash (`Waits.UndecodableNeverOnChain`). `Scenarios.UnregistrableOrder` is one the server accepts and somebody
  pays.

What can still be brought on chain has an exact answer, `Outlook.RecoverableIff`: once every payment on the ledger is
in evidence, a settled order without a hash can still get one in some run if and only if a process is writing it and
its remaining calls can get it through, or its entry is not final and is there or fit to be registered, and a sweep
under way will come to it or fewer than twenty older orders are beyond help.

## Assumptions

- Order ids and operation ids are fresh; paging tokens are positive and increase.
- The Stellar library decodes exactly the account addresses of SEP-0023; no other result depends on which those are.
- Horizon answers with exactly the next `limit` records after the cursor.
- A failed SQL statement aborts its transaction; the lookup either fails it too or answers truly.
- Only this backend holds the operator key, every `invoke` is a distinct transaction, contract entries do not
  expire, and `GetTransaction` reports success or failure truthfully when it reports one.
- One process runs one sweep at a time.
- The memo column is unique and equals the order id, which `Ingest.NewOrder` establishes and every step keeps.

## Model

| member | source | states |
|---|---|---|
| Soundness.FulfillableIsPaid | contracts/order-status/src/lib.rs:161-172 | In every reachable state, if `is_fulfillable(id)` answers yes then the order is validated in Postgres, the registry shows its exact stroop amount, buyer, asset and memo hash, and the ledger holds a payment with that memo, from that buyer, to that destination, in that asset, of at least that amount. |
| Soundness.ValidatedIsPaid | project/shopble/services/watcher/watcher.go:165-235 | Every validated row has a matched evidence row that stands for a real ledger payment satisfying the order. |
| Soundness.EvidenceIsLedger | project/shopble/services/watcher/watcher.go:187-202 | In every reachable state each evidence row is the one ledger record with its operation id, field by field: transaction hash, paging token, close time, accounts, amount as the column keeps it, the asset named XLM if native, the memo empty unless text; that record is a payment or path payment; the order named is the memo's, and none is iff the reason is `invalid_memo`. |
| Soundness.ValidatedWithinReceived | project/shopble/services/watcher/watcher.go:187-231 | Conservation: in every reachable state the stroops owed by validated orders sum to at most the stroops held by matched evidence. |
| Soundness.FulfillableWithinLedger | contracts/order-status/src/lib.rs:161-172 | Conservation for a third party: in every reachable state the registered amounts of all fulfillable entries sum to at most the stroops of the payments on the ledger. |
| Soundness.VerdictsStand | project/shopble/services/watcher/watcher.go:209-230 | With any number of watchers committing on stale copies, along every run a final status, its reason and a saved hash are never rewritten, no order loses its intent, and evidence only grows. |
| Soundness.CommittedVerdicts | project/shopble/models/order_intent.go:45-66 | In every reachable state an order is awaiting or validated without a reason, or rejected with a named reason other than `invalid_memo`; it is settled iff an evidence row carries exactly its status and reason, and `payment_detected` is never committed. |
| Soundness.ChainNeverContradicts | project/shopble/services/watcher/watcher.go:252-282 | For every interleaving, reordering, loss, duplication or late arrival of the three calls, the statuses an order's chain entry goes through are a prefix of absent, awaiting, detected, T, where T is the verdict and reason committed in Postgres; an entry exists only for a settled order. |
| Soundness.HashMeansVerdict | project/shopble/services/watcher/watcher.go:270-281 | A non-empty `on_chain_tx_hash` is a verdict transaction of that order that succeeded, and the chain holds exactly that verdict. |
| Soundness.RetryBound | project/shopble/services/watcher/watcher.go:284-333 | With any number of processes sweeping on query results that went stale, one process tries one order at most six times over all its sweeps, and more than three times only if a verdict was acknowledged to it and the hash is still not saved. |
| Waits.LostHashStaysLost | project/shopble/lib/libsoroban/client.go:188-206 | Once the verdict landed and no process waits for the news (it gave up, crashed, or failed to save the hash), no run of any number of processes ever saves one. |
| Outlook.RecoverableIff | project/shopble/services/watcher/watcher.go:252-334 | Once every payment on the ledger is in evidence, a settled order without a hash can still get one, through some run of the program, iff some process is writing it and what it has sent and has yet to send can get it through, or its entry is not final and present or fit to be registered, and a sweep under way will come to it or fewer than twenty older unsynced orders are beyond help. |
| Outlook.ShutForever | project/shopble/services/watcher/watcher.go:301-334 | In every reachable state: an order that no process can finish writing gets no hash in any run, through any restart of any process, if its entry is final or it is unfit to be registered, or if no sweep under way will come to it and twenty older unsynced orders are beyond help. |
| Outlook.FinishingRecovers | project/shopble/services/watcher/watcher.go:259-281 | In every reachable state: a write under way whose remaining calls, and those in flight, can take the entry from where it is to the verdict does so in some run, and the hash is saved. |
| Outlook.UpcomingRecovers | project/shopble/services/watcher/watcher.go:313-333 | In every reachable state: a sweep under way that reaches the order within its five tries can bring it on chain, if its entry is not final and present or fit to be registered. |
| Outlook.SweepsRecover | project/shopble/services/watcher/watcher.go:297-334 | With the ledger in evidence and fewer than twenty older orders beyond help, sweeps bring it on chain in some run, helping those in front that can be helped first. |
| Runs.Walk | project/shopble/services/watcher/watcher.go:313-333 | Sweep after sweep over the same rows, with every try failing, comes to any row that is not exhausted with a try left, or exhausts them all. |
| Waits.UndecodableNeverOnChain | project/shopble/lib/libsoroban/client.go:70-75 | In every reachable state an order whose wallet does not decode has no chain entry and no hash. |
| Waits.WaitsStep | project/shopble/lib/libsoroban/client.go:188-206 | Every step keeps that a process waits only while it writes, for a call of that order already sent that nobody was told of, and no two processes for the same. |
| Soundness.ViewShowsVerdict | project/shopble/api/v1/evidence_api.go:80-109 | For every judged evidence row in every reachable state, the view against the order as it now stands shows all fields matching iff the stored verdict is matched, and its first mismatch in matcher order is the stored reason; each exactly unless all else is as ordered and the amount is short by at most half a stroop, which seven-place amounts rule out. |
| Steps.StepSafe | project/shopble/services/watcher/watcher.go:120-334 | Every protocol step keeps the invariant that ties ledger, rows, evidence, looked-up copies, contract entries, calls in flight, hashes and retry counters together, and moves each chain entry by at most one place. |
| Steps.ReachableSafe | project/shopble/services/watcher/watcher.go:120-334 | The invariant holds in every state reachable from an empty world with any set of watchers. |
| Steps.LandedStore | contracts/order-status/src/lib.rs:106-150 | Whatever permitted call lands, in whatever order, its entry moves one place towards the committed verdict or nothing changes. |
| Steps.FirstAck | contracts/order-status/src/lib.rs:144-146 | An acknowledgement of a verdict is the first for its order: no hash was saved and no process counted one before. |
| Steps.CommittedEvidence | project/shopble/services/watcher/watcher.go:183-231 | A commit on a possibly stale copy keeps operation ids unique, every row explained by a ledger payment, and every settled order backed by a row with its verdict and reason. |
| Ingestion.ExactlyOnce | project/shopble/services/watcher/watcher.go:120-244 | In every state a single watcher can reach through crashes, aborts, half-processed pages and rewound cursors, the database is the simple machine's after a log whose payments are a prefix of the ledger's; evidence is that prefix row by row and every stream's cursor lies inside it. |
| Ingestion.CommitTakesNext | project/shopble/services/watcher/watcher.go:203-234 | A single watcher's commit either replays a known payment and changes no order and no evidence, or takes exactly the next payment of the ledger as one step of the simple machine. |
| Ingestion.Linearize | project/shopble/services/watcher/watcher.go:165-174 | A payment looked up before some orders were created and committed after them has the effect of having been taken, whole, at its lookup. |
| Ingestion.VerdictIsFirstPayment | project/shopble/services/watcher/matcher.go:20-57 | With one watcher, status and reason of an order are `Terminal` and `Match` of the first payment in ledger order carrying its memo and looked up after its creation, and the order is as created if there is none. |
| Ingestion.OneRowPerSettledOrder | project/shopble/services/watcher/watcher.go:183-231 | With one watcher, each settled order has exactly one non-duplicate evidence row, with its verdict and reason; other linked rows are duplicates, unlinked rows are rejected as `invalid_memo`, no order is, and the two sets have the same size. |
| Ingestion.CaughtUp | project/shopble/services/watcher/watcher.go:120-136 | With one watcher and no payment pending behind its cursor, evidence holds every payment of the ledger. |
| Settlement.ClosedForm | project/shopble/services/watcher/watcher.go:167-231 | After any well-formed log, each order is its created row settled by the first payment addressed to it, or untouched. |
| Settlement.FirstPaidIsFirst | project/shopble/services/watcher/watcher.go:208-220 | The deciding payment is the earliest in the log that carries the memo of an order already created, and there is none iff no payment does. |
| Settlement.FirstPaidStands | project/shopble/services/watcher/watcher.go:208-220 | No later payment or order changes which payment decides. |
| Settlement.EvidenceCorresponds | project/shopble/services/watcher/matcher.go:28-33 | Over every log, settled orders and judged rows correspond one to one and are equal in number. |
| Matcher.MatchMeaning | project/shopble/services/watcher/matcher.go:27-48 | Matched iff the order is open and the payment satisfies it in destination, asset, wallet and exact value; duplicate iff the order is settled; rejected iff a named reason is given; `invalid_memo` iff there is no order. |
| Matcher.FirstFailureWins | project/shopble/services/watcher/matcher.go:24-48 | Against an open order the reason is the first of destination, asset, wallet and amount that is wrong, each exactly when those before it are right. |
| Matcher.MatchOfOpenCopy | project/shopble/services/watcher/matcher.go:20-33 | A stale copy of an order that still shows it open is judged like the order as created. |
| Ingest.NewOrderOpens | project/shopble/api/v1/order_api.go:33-76 | An order is accepted iff wallet shape, amount and memo are, and its row opens awaiting payment with the exact amount and the memo equal to its id. |
| Ingest.NewOrderFields | project/shopble/api/v1/order_api.go:50-72 | The row carries the request's product, wallet and time and the configuration's destination and asset under the memo; the instruction asks for the same destination, asset and memo as `MEMO_TEXT` on the configured network, and for the exact amount with seven places. |
| Ingest.NewOrderRefuses | project/shopble/api/v1/order_api.go:39-60 | Each refusal exactly when, in figures: the wallet first, then an amount not above zero, above 2^63-1 stroops, or with more than seven places, then a memo that is empty or over 28; a request that meets none of them is accepted. |
| Ingest.ExactPayerMatched | project/shopble/lib/libstellar/instruction.go:26-57 | For every accepted, still open order in any table, a payment copying the instruction's fields from the buyer wallet is found by memo, matched, and leaves exactly that order validated. |
| Ingest.UnparsableNeverMatched | project/shopble/services/watcher/watcher.go:153-156 | An amount that does not parse never satisfies an order. |
| Paging.PollStands | project/shopble/services/watcher/watcher.go:120-136 | A fault-free poll never moves the cursor back, and leaves it unchanged iff the next `limit` raw records hold no payment. |
| Paging.PollProgress | project/shopble/services/watcher/watcher.go:120-136 | With payments pending and no gap ahead, each poll strictly lowers the number of payments still to ingest. |
| Paging.EnoughPolls | project/shopble/services/watcher/watcher.go:119-136 | Short of a gap, as many polls as there are payments pending, or more, leave none. |
| Paging.PollsReachTheEnd | project/shopble/lib/libstellar/horizon.go:95-129 | Some number of polls ingests everything iff no `limit` consecutive records without a payment lie before a later payment. |
| Paging.StallIsPermanent | project/shopble/lib/libstellar/horizon.go:95-129 | After `limit` records without a payment the cursor never moves again, however much the ledger grows. |
| Horizon.Server.FetchPayments | project/shopble/lib/libstellar/horizon.go:63-130 | The loop returns the payment list of the next `limit` records, or an error; what that list and those records are is `Horizon.PaymentsAre` and `Horizon.PageIs`. |
| Horizon.PaymentsAre | project/shopble/lib/libstellar/horizon.go:95-129 | The list holds one entry for each record whose kind is `payment` or begins with `path_payment`, in order, and no other; id, token, hash, accounts, issuer, amount and close time are the record's, the code is XLM if the asset is native and the record's otherwise, the memo is the record's if it is text and empty otherwise. |
| Horizon.PageIs | project/shopble/lib/libstellar/horizon.go:63-95 | A page is the records right after all those the cursor covers: `limit` of them, or all there are. |
| Horizon.PageIsStretch | project/shopble/lib/libstellar/horizon.go:63-130 | A page read from the token of one payment is the contiguous stretch of the ledger's payments that follows it: none is skipped, none repeated. |
| Horizon.PaymentsDistinct | project/shopble/models/payment_evidence.go:18-21 | Filtering keeps operation ids distinct and tokens increasing. |
| Sweep.TriesAreBounded | project/shopble/services/watcher/watcher.go:313-333 | Over any number of tries with saved hashes, the remaining attempts of all unsynced orders fall by at least one per try, so at most that many tries are ever made. |
| Sweep.TryCosts | project/shopble/services/watcher/watcher.go:323-329 | One try, acknowledged or not, lowers the remaining attempts by at least one. |
| Sweep.NothingChosen | project/shopble/services/watcher/watcher.go:313-322 | A sweep makes at most five tries, and none iff every row it found is exhausted. |
| Sweep.ChosenAreFirst | project/shopble/services/watcher/watcher.go:313-322 | A sweep chooses the first rows of its query that failed fewer than three times, in order; it leaves one of those out only after choosing five before it. |
| Sweep.QueryWith | project/shopble/services/watcher/watcher.go:301-307 | With fewer than twenty older unsynced orders the query may return an order. |
| Sweep.QueryWithout | project/shopble/services/watcher/watcher.go:301-307 | With twenty older unsynced orders it cannot. |
| Sweep.SweepProgress | project/shopble/services/watcher/watcher.go:301-333 | While fewer than twenty unsynced orders are exhausted and one is not, a sweep tries something; sweeps come to rest only with every order synced or exhausted, or with twenty exhausted ones in front. |
| Sweep.OldOrdersStarveYoung | project/shopble/services/watcher/watcher.go:301-307 | Behind twenty older exhausted orders an order is never chosen. |
| Sweep.StarvedForever | project/shopble/services/watcher/watcher.go:301-320 | Over any further sweeps of the process, with orders created, settled and synced in between, an order behind twenty older exhausted ones is never tried; `Watcher.Process.Start` ties this to the running process. |
| Sweep.BlockedStays | project/shopble/services/watcher/watcher.go:313-333 | A sweep, whatever its outcomes and whatever else happens to tried or new orders, leaves such an order untried and as blocked as before. |
| Sweep.StarvedMeans | project/shopble/services/watcher/watcher.go:301-320 | If a sweep tries nothing while some order is left to try, its query found twenty exhausted orders, none younger than that one. |
| Sweep.SweepsComeToRest | project/shopble/services/watcher/watcher.go:297-334 | With no order newly settled and every acknowledged hash saved, at most as many sweeps try anything as there are attempts left at the start; one of any larger number tries nothing, and then every order is synced or exhausted, or twenty exhausted ones stand in front. |
| Recovery.CleanSweepHeals | project/shopble/services/watcher/watcher.go:297-334 | A sweep without faults syncs every order it tries that can still be healed, makes no order stuck that was not, and uses up an attempt a try; with fewer than twenty stuck it tries nothing only if all that lack a hash are stuck. |
| Watcher.Process.constructor | project/shopble/services/watcher/watcher.go:49-77 | A start or restart finds any reachable state and begins with empty counters, touching nothing else. |
| Watcher.Process.WriteChain | project/shopble/services/watcher/watcher.go:252-282 | It reports success only for a verdict call that succeeded, whose sender was just told and nobody before, and then the chain holds the verdict; table, chain and hash are exactly those of the three calls, whatever each of them meets; only the hash column changes; it never succeeds on a final entry, and no final entry or missing hash over one is ever undone; without faults it succeeds iff the entry is not final (and, if absent, the wallet decodes) and touches no other order's entry. |
| Watcher.Process.WriteSettled | project/shopble/services/watcher/watcher.go:238-243 | The order just settled is written: afterwards table and chain are those of its three calls, and if these meet no fault and its entry could be healed, the entry shows the committed verdict, and the row has its hash if that is saved. |
| Watcher.Process.SendCalls | project/shopble/services/watcher/watcher.go:259-274 | The three calls are made one after the other whatever the earlier ones report, and the outcome is that of the third: if it meets no fault, it succeeds iff the entry has the payment detected when it is made; so a retry from `payment_detected` succeeds whatever becomes of the first two, if nothing else lands. |
| Watcher.Process.OpenOrder | project/shopble/lib/libsoroban/client.go:70-85 | For a wallet that does not decode the chain and what is in flight stay as they are; otherwise the stroops travel as two 64-bit halves, and a fault-free call registers the amount they decode to with buyer, asset and memo hash, or is refused. |
| Watcher.Process.SetStatus | project/shopble/lib/libsoroban/client.go:87-95 | The encoded status is read by the contract as the verdict meant, and the call is accepted iff the contract's transition allows it. |
| Watcher.Process.Transaction | project/shopble/services/watcher/watcher.go:165-235 | The statements of the transaction, with their row-count branches, either change nothing, which happens iff a statement that is reached fails, or amount to the whole commit: evidence iff new, both guarded updates iff the order was still open, cursor always; and they report a settled order iff one was settled. |
| Watcher.Process.Process | project/shopble/services/watcher/watcher.go:152-244 | One payment: it fails iff a statement that is reached fails, and then changes nothing; otherwise the commit, and after it the write of exactly the order it settled. With clean calls that order ends on chain with its verdict if its entry could be healed, with its hash if that is saved, and every other row and entry is as it was. |
| Watcher.Process.PollOnce | project/shopble/services/watcher/watcher.go:119-144 | The payments among the next `limit` records are processed in order up to the first that fails, and it reports how many: the operations in evidence are those before it and exactly these, and the cursor ends on the last of them, or where it was; a lost cursor rereads from the beginning; a failed fetch changes nothing; an order whose hash is lost stays so. With clean calls every order settled on the way that could be healed is on chain with its verdict and, if hashes are saved, has its hash. |
| Watcher.Process.SyncChain | project/shopble/services/watcher/watcher.go:297-334 | A sweep tries exactly the first five non-exhausted rows of the query, in order, unless the chain is off or the query fails; table, chain and outcomes are exactly those of the writes; the counters follow each outcome, each try uses up one attempt, untried orders keep their row, their hash and their attempts, and without faults each try succeeds exactly if its order can be healed. |
| Watcher.Process.TryOne | project/shopble/services/watcher/watcher.go:322-329 | One attempt is one whole write of the order; it forgets the counter on success and raises it by one on failure, and uses up one attempt; of the orders, only the hash of this one changes, and only on a success that was saved. |
| Watcher.Process.Start | project/shopble/services/watcher/watcher.go:87-110 | The rounds are taken one after the other, each exactly as `OneRound` says; over any rounds of any outcome, with records and orders arriving in between: no verdict is rewritten, no lost hash comes back, no order is tried more than six times, and one behind twenty older exhausted ones not at all; a sole watcher has taken a prefix of the ledger's payments, once each and in order; if the polls meet no fault, nothing more arrives, no gap lies ahead and there are as many rounds as payments pending, that is the whole ledger; and if nothing goes wrong, all is ingested, fewer than twenty orders are stuck and there are as many rounds as attempts left, every order that was not stuck ends up with its hash. |
| Watcher.Process.OneRound | project/shopble/services/watcher/watcher.go:91-108 | One round, exactly: what arrives, the page after the cursor, and a sweep of the resulting table iff the poll did not fail and the page was not full, however many payments it read; then the attempts of exactly the orders the sweep chooses rise by one. Each poll that meets no fault moves the cursor as `Paging` computes it, and each calm round after the ledger is ingested is a clean sweep. |
| Watcher.RoundSweeps | project/shopble/services/watcher/watcher.go:97-107 | After a poll without faults that read less than a page, the chosen orders are tried; after a full page, or with the chain off, none; attempts change for the tried orders only, by one. |
| Watcher.Process.Meanwhile | project/shopble/api/v1/order_api.go:33-76 | Records that arrive extend the ledger, requests are placed one by one, and they add rows awaiting payment and change none. |
| Watcher.PlacedRow | project/shopble/api/v1/order_api.go:33-76 | After the requests an id is in the table iff it was before or one of them was accepted for it, and a row that was there stays. |
| Watcher.PlacedFirst | project/shopble/api/v1/order_api.go:33-76 | A new id gets the row of the first request accepted for it. |
| Effects.Healing | project/shopble/services/watcher/watcher.go:259-274 | Self-healing: from absent, awaiting or detected the three calls in order bring the entry to the verdict, each refusal harmless; from a final entry the last call is refused. |
| Effects.ThirdCallDecides | project/shopble/services/watcher/watcher.go:259-274 | If the third call meets no fault, a write succeeds iff the entry has the payment detected when that call is made, whatever the first two came to, and then the entry shows the verdict. |
| Effects.NeededCallsSuffice | project/shopble/services/watcher/watcher.go:259-274 | From wherever a healable entry stands, only the calls it still needs have to meet no fault; the others may be lost, refused or misreported, if nothing else lands before them. |
| Effects.CleanWrite | project/shopble/services/watcher/watcher.go:252-282 | Three calls without faults succeed iff the entry is healable, leave it with the verdict, and touch no other. |
| Effects.CleanPage | project/shopble/services/watcher/watcher.go:119-144 | Over a page of any transaction faults, with clean calls: each order settled on the way whose entry could be healed is on chain with its verdict and, if hashes are saved, has its hash; every other row and entry is as it was. |
| Watcher.AckIsFresh | project/shopble/services/watcher/watcher.go:270-281 | A success told to this caller was told to no one before. |
| Watcher.Boot | project/shopble/services/watcher/watcher.go:49-77 | A contract just deployed, empty tables, an empty ledger and the one watcher make a valid process, from which every method above can be called. |
| Scenarios.SomeOrder | project/shopble/api/v1/order_api.go:33-76 | The server accepts an order whose wallet decodes, checksum included, so the runs below start from something. |
| Scenarios.FulfilledOrder | contracts/order-status/src/lib.rs:161-172 | For every order that can be created with a decodable wallet, some run ends with it paid, fulfillable on chain and its hash saved. |
| Scenarios.PathPaymentValidates | project/shopble/lib/libstellar/horizon.go:95-129 | A ledger whose only record is a path payment that copies an order, from its buyer, ends with that order validated. |
| Scenarios.LostAcknowledgement | project/shopble/services/watcher/watcher.go:270-281 | And some runs, where the save fails or the process crashes first, end with it fulfillable on chain, without a hash, and with no run that ever gives it one. |
| Scenarios.UnregistrableOrder | project/shopble/api/v1/order_api.go:39-43 | The server accepts an order for a wallet of 56 characters, the first a G, that is no address; paid from a good address it is rejected for the wrong wallet, and no run puts it on chain. |
| Scenarios.StalledLedger | project/shopble/services/watcher/watcher.go:120-136 | For every page size a ledger of that many account creations and one payment is reachable, on which no number of polls moves the cursor. |
| Scenarios.StarvedOrder | project/shopble/services/watcher/watcher.go:301-320 | A run of one watcher, with real sweeps, reaches a state where twenty orders for an undecodable wallet were refused and tried three times each, and a younger one with a good wallet only right after its settlement; no further sweep of that process tries it, and no run gives it a hash. |
| Client.Network.Invoke | project/shopble/lib/libsoroban/client.go:97-207 | A success means this very call was applied and its sender is told so; a failure may mean never, already or later applied, and its sender waits no more; a call to a final entry always fails; without faults, however late the answer, the call succeeds iff the contract accepts it, and is then applied. |
| Client.Network.Await | project/shopble/lib/libsoroban/client.go:188-206 | The thirty-second wait: if the transaction lands in second i and the first answer from then on comes in second j, it succeeds iff the contract accepted the call when it landed, whatever else lands; if nobody answers after the landing it is cancelled at the first cancellation and times out otherwise; a reported ledger failure means the transaction is gone without success; giving up leaves a call still in flight as it was. |
| Client.AnswerDecides | project/shopble/lib/libsoroban/client.go:188-206 | The first answer after the landing decides, in whatever second it comes, and alone on the network the wait leaves exactly the landed transaction. |
| Client.NoAnswer | project/shopble/lib/libsoroban/client.go:188-206 | Without an answer after the landing, a wait ends with the first cancellation, or after thirty seconds. |
| Client.WaitEnds | project/shopble/lib/libsoroban/client.go:188-206 | These are all the ends a wait can come to, each under its own condition. |
| Client.CleanCall | project/shopble/lib/libsoroban/client.go:97-207 | A call that is prepared, sent, lands alone and is answered succeeds iff the contract accepts it, and leaves nothing else behind. |
| Client.SentOnce | project/shopble/lib/libsoroban/client.go:140-186 | One transaction is sent iff the call was prepared, the simulation accepts it and it is not lost; a sending reported as failed although delivered is told as a failure and leaves the transaction in flight. |
| Client.Network.Land | contracts/order-status/src/lib.rs:106-150 | A transaction in flight is applied once, and counts as succeeded iff the contract returned no error. |
| Client.CleanLanding | project/shopble/lib/libsoroban/client.go:180-206 | An accepted call that is sent and lands leaves exactly the applied call and its hash behind. |
| Contract.OrderStatusContract.constructor | contracts/order-status/src/lib.rs:93-98 | The operator is fixed at deployment, with an empty registry. |
| Contract.OrderStatusContract.CreateOrder | contracts/order-status/src/lib.rs:106-131 | It succeeds iff the operator calls it for an absent id, and then adds exactly the opening entry; otherwise the named error and no change. |
| Contract.OrderStatusContract.SetStatus | contracts/order-status/src/lib.rs:134-150 | It succeeds iff the operator calls it along a legal edge, and then changes only that entry's status; otherwise the named error and no change. |
| Contract.OrderStatusContract.GetOrder | contracts/order-status/src/lib.rs:153-158 | It answers with the entry as it is stored iff there is one, and that it was not found otherwise. |
| Contract.OrderStatusContract.IsFulfillable | contracts/order-status/src/lib.rs:161-172 | It answers yes iff the order can be read and is validated. |
| Contract.FinalIsForever | contracts/order-status/src/lib.rs:69-79 | An entry with a final status refuses every call and is changed by none. |
| Database.Tables.CreateOrder | project/shopble/api/v1/order_api.go:33-76 | The row is inserted iff the request is accepted, and nothing else changes. |
| Database.Tables.InsertEvidence | project/shopble/services/watcher/watcher.go:203-206 | A row is inserted iff its operation id is new; a known one changes nothing. |
| Database.Tables.UpdateStatus | project/shopble/services/watcher/watcher.go:213-218 | A row changes iff it exists with the guarded status, and then only in its status. |
| Database.Tables.UpdateVerdict | project/shopble/services/watcher/watcher.go:222-227 | A row changes iff it exists with the guarded status, and then in status and reason only. |
| Database.Tables.SelectUnsynced | project/shopble/services/watcher/watcher.go:301-307 | At most twenty settled rows without a hash, distinct, oldest first, leaving out only younger or equally old ones. |
| ScVal.StatusRoundTrip | project/shopble/lib/libsoroban/scval.go:66-101 | Encoding is defined iff the status is named and, for a rejection, the reason is; the contract decodes what was meant. |
| ScVal.WireNames | project/shopble/lib/libsoroban/scval.go:66-101 | The names on the wire, spelled out: a vector headed by the variant, holding for a rejection one headed by the reason. |
| ScVal.WireReads | contracts/order-status/src/lib.rs:26-48 | What the contract makes of each of those names. |
| ScVal.StatusEncodingInjective | project/shopble/lib/libsoroban/scval.go:84-101 | Two pairs share an encoding iff they agree on the status and, for rejections, on the reason. |
| ScVal.SameGraph | project/shopble/models/order_intent.go:45-60 | Go's transition table allows an edge iff the contract's does on the encodings. |
| ScVal.I128RoundTrip | project/shopble/lib/libsoroban/scval.go:31-39 | For every int64, negative ones included, Hi*2^64 + Lo is the number, and both halves fit. |
| Instruction.NormalizeAcceptsExactly | project/shopble/lib/libstellar/instruction.go:41-57 | An amount is accepted iff it is written with at most seven places and its exact value lies above zero and at most at 2^63-1 stroops; it is then printed unrounded. |
| Instruction.NormalizeRefuses | project/shopble/lib/libstellar/instruction.go:46-57 | Each refusal exactly when: not above zero, above the ceiling, or in range with more than seven places. |
| Instruction.AmountRoundTrip | project/shopble/lib/libstellar/instruction.go:41-57 | The printed form of every accepted amount parses back to the same value. |
| Instruction.ChainStroopsLossless | project/shopble/lib/libsoroban/client.go:76-77 | On every accepted amount `Shift(7).IntPart()` neither truncates nor wraps, also after storage. |
| Decimals.LessThanIsValueOrder | project/shopble/services/watcher/matcher.go:43-46 | The decimal comparison is the order of exact values, for all exponents. |
| Decimals.RoundNearest | project/shopble/api/v1/evidence_api.go:90 | Seven-place rounding is to the nearest stroop, halves away from zero. |
| Decimals.RoundExact | project/shopble/lib/libstellar/instruction.go:10-13 | With at most seven places rounding changes nothing. |
| Decimals.ParseFixed7 | project/shopble/lib/libstellar/instruction.go:56 | The seven-place string of n stroops parses to n stroops. |
| Models.ColumnKeepsStroops | project/shopble/models/order_intent.go:75-76 | A numeric(23,7) column keeps the rounded stroops, and the exact value of anything with at most seven places. |
| Validation.StroopsExact | project/shopble/web/src/validation.ts:30-36 | On every plain amount with at most seven places `stroops` is the exact value times 10^7, the same number the server parses. |
| Validation.CapThreshold | project/shopble/web/src/validation.ts:9-19 | The double comparison rejects exactly the counts more than 193 above the int64 ceiling. |
| Validation.FormMirrorsServer | project/shopble/web/src/validation.ts:11-21 | Of the plain amounts, whatever their places, the form accepts exactly those the server accepts, and those 193 counts. |
| Validation.FormRefuses | project/shopble/web/src/validation.ts:11-21 | Each of the five refusals exactly when: nothing but spaces; not a plain decimal; more than seven digits after the point; value zero; more than 193 stroops above the ceiling. |
| Validation.PlainIs | project/shopble/web/src/validation.ts:14-15 | A plain amount is digits, or digits, a point and digits, and its fraction is what follows the point. |
| Validation.TrimIs | project/shopble/web/src/validation.ts:12 | Trimming removes the spaces at both ends, all of them, and nothing else. |
| Validation.FormAcceptsAboveCeiling | project/shopble/web/src/validation.ts:17-19 | One stroop above the ceiling passes the form and is refused by the server. |
| Validation.BalanceComparisonExact | project/shopble/web/src/validation.ts:38-43 | For an accepted amount and a plain balance, the comparison is that of exact decimal values. |
| Validation.PrintParse | project/shopble/web/src/validation.ts:30-50 | `stroops(toAmount(v)) = v` iff `v >= 0` or `v <= -1000000`. |
| Validation.ParsePrint | project/shopble/web/src/validation.ts:30-50 | `toAmount(stroops(s)) = s` for every canonical seven-place amount. |
| Comparison.Compare | project/shopble/api/v1/evidence_api.go:84-109 | Six rows in order, each with both values; a row matches iff the strings are equal, or it is the amount and more was paid. |
| Comparison.AmountRow | project/shopble/api/v1/evidence_api.go:99-103 | The amount row matches iff the payment covers the order or falls short by at most half a stroop. |
| Comparison.ViewAgrees | project/shopble/api/v1/evidence_api.go:80-109 | Against an open order, view and verdict agree, and the first mismatch names the reason, iff no such underpayment is hidden. |
| Comparison.SevenPlacesAgree | project/shopble/api/v1/evidence_api.go:80-109 | With at most seven places they always agree. |
| Comparison.HiddenUnderpayment | project/shopble/api/v1/evidence_api.go:99-103 | 0.99999995 for an order of 1, an amount with more places than Stellar has, is rejected as an underpayment and shown with every field matching. |
| Report.Summarize | project/shopble/services/report/report.go:42-78 | The loops count orders, wallets and verdicts, split the reasons, and list the settled orders without a hash, sorted. |
| Report.ReasonsSplit | project/shopble/services/report/report.go:67-75 | Seen and missing reasons interleave to the enum, each in its order, and a reason is seen iff the evidence holds it. |
| Report.VerdictsAddUp | project/shopble/services/report/report.go:59-66 | The verdict counts sum to the evidence length. |
| Report.CountIs | project/shopble/services/report/report.go:59-66 | A verdict's count is the number of evidence rows that carry it. |
| Report.ReportIsSweepRange | project/shopble/services/report/report.go:53-55 | The gap list holds exactly the orders the sweep query ranges over before its limit, each once. |
| Report.SortStringsSorts | project/shopble/services/report/report.go:76 | Sorting gives a sorted permutation. |
| Report.BeforeMeans | project/shopble/services/report/report.go:76 | The order of the gap list: a string comes before those it begins and before those larger where they first differ. |

## Left out

- HTTP, JSON, gorm, gin, cobra, configuration and logging; Horizon and RPC errors are outcomes, not messages.
- XDR building, fees, signing, sequence numbers and time bounds of `invoke`; the network decides what is lost,
  delayed or delivered, and a transaction in flight may be dropped at any time.
- SHA-256 is an injective constructor and ksuid a fresh name.
- Storage expiry and restore of contract entries; `get_operator`.
- Wall-clock time: the three-minute budget of `writeChain` is the cancellation a tick may carry.
- Percent-encoding in `BuildInstruction` and the wallet's pay link.
- Scientific notation in `NewFromString`, hexadecimal and whitespace in `BigInt`, 32-bit exponent limits.
- Memo length is counted in bytes by the source; ids here are one byte a character.
- The surrogate key and capture time of evidence, `updated_at`, and overflow of varchar and numeric columns.
- Paging tokens are numbers here and strings in the source, which never compares them.
- Markdown rendering of the report, the React interface, and the generic trees `common`, `glib`, `database`.
- Outlook.RecoverableIff: while payments on the ledger wait to be ingested, a sweep is preceded by their settlement,
  which may put further orders in front; for such states only `Outlook.ShutForever`, `Outlook.FinishingRecovers` and
  `Outlook.UpcomingRecovers` are stated.
- Watcher.Process.Start: records and orders arrive between rounds, not inside one, and other watchers do not run
  inside a method call; the protocol's steps cover those interleavings. `Start` takes what its rounds meet as
  parameters.
- Database.Tables.SelectUnsynced: rows created in the same second may come in any order, as in the source.
- Watcher.Process.WriteChain: the fault-free case assumes that no other transaction lands during its three calls.
