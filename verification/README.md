# Verification of the payment-to-credit pipeline

A client that runs out of AI Token pays USDC on Solana and is credited. The path of that money crosses three services:
the x402 gateway (orders, proofs, confirmers, webhooks), WEA (the facilitator that broadcasts and settles), and the token
service (an append-only ledger with a cached balance). This project models that path in Dafny 4.11 and proves what it
promises. `dafny verify dfyconfig.toml` checks the whole project. Nothing of the original program is executed.

## How it is organised

| file | what it holds |
|---|---|
| `Orders.dfy` | the order status machine, `transition`, the idempotent create, the unique keys |
| `Gateway.dfy` | the gateway's multi-statement database transactions, with rollback |
| `Ledger.dfy` | credits, debits, the entry history and the balance cache |
| `Pipeline.dfy` | the step system: both routes, any number of confirmers, credits, billed calls, deaths |
| `PipelineInvariant.dfy`, `PipelineSteps.dfy` | the invariant, the rely/guarantee relation between tasks, and its preservation |
| `PipelineTheorems.dfy` | what holds in every reachable state |
| `OrderHistory.dfy` | what becomes of one order row over a run, column by column, and which orders get tokens |
| `EventualCredit.dfy` | which confirmed top-ups can still be credited or posted, and which never will be |
| `PendingOrders.dfy` | which pending orders can still leave `pending` |
| `Scenarios.dfy` | runs that show those conditions to matter |
| `Handlers.dfy` | the three handlers as imperative code over the database and the token service, and the proof that their runs are runs of the step system |
| `Shortvec.dfy`, `ProofVerifier.dfy`, `TxBuilders.dfy` | the wire format: length prefix, splitter, instruction walk, both builders |
| `SettlementWorker.dfy`, `Webhooks.dfy` | the two retrying deliverers |
| `RateLimit.dfy`, `NonceWindow.dfy`, `Billing.dfy`, `Ulid.dfy` | the limiter, replay protection, cost arithmetic, ids |
| `Wrappers.dfy` | `Option` and `Result` |

Code that works step by step is modelled as classes and methods. Each method is proved equal to a specification function
of the old state, and the promises are proved about that function: first for one step, then over every run.

**The step system.** One database transaction is one atomic step, and every `await` on another service is a step
boundary. Between two steps of a task any other task may run; a task may die at any boundary; the answers of WEA, of the
chain and of the clock are arbitrary. Each task keeps the stale copies of rows that the handler keeps. The token
service's idempotency lookup and its lock-and-insert are two separate steps, and a request that has reached it goes on when
the confirmer that sent it times out or dies. The invariant gives every task a claim about
the shared state, and every step is shown to leave the claims of all the other tasks standing.

**The handlers.** `Handlers.Handler` has the code of `submit_proof`, `protected_checkout_order` and
`_confirmer_advance_one` as methods. At an await the handler is handed whatever state the other tasks have left. Each method
is proved to do, between two awaits, exactly the step of the step system that is due, and `HandlerRunIsPipelineRun` turns
such a run into a run of the step system, so that every theorem below holds of the handlers.

**Assumptions.** Base64, SHA-256, Ed25519, address derivation, UTF-8, base58, Solana message parsing and account
compilation are library code; they appear as parameters (`ProofVerifier.Chain`, `compile`, `sign`). For built
transactions it is assumed that a compiled message resolves to the instructions it was built from, lists the payer first
and requires one signature per signer (`TxBuilders.Compiles`), and that what was signed verifies. The `signed_tx_hash`
column is keyed on the signed string itself. The `tx_hash` column is UNIQUE, as migration 002
(`netstars/x402/db/migrations/002_x402_protocol.up.sql:23`) makes it, so a transition may end in an
integrity error; a hash over 96 characters or a status reason over 255 is a data error
(`netstars/x402/db/migrations/001_init.up.sql:19-21`).
Shifts and masks are written as arithmetic by powers of two. Python and Rust integers that do not overflow in the code are
unbounded.

## What the code does that its comments do not say

- `webhooks.py` says a delivery is dead-lettered when `attempt_count > MAX` (lines 15-19). The code does it when the next
  attempt would reach `MAX_ATTEMPTS` (line 250), so with the default of six the 86400-second delay is never scheduled
  (`Webhooks.LongestBackoffUnused`).
- `worker.rs` announces five retry intervals (lines 27-29). Index 0, 300 s, is never waited for: the first retry waits
  900 s (`SettlementWorker.FivePostsSpaced`).
- `webhooks.py` counts attempts only for POSTs that end in a response or an `httpx.HTTPError`; any other exception leaves
  the row due again (`Webhooks.EveryPostCountedIffNoneLost` gives the exact condition).
- `estimate_cost_token` calls itself a worst case (`router.py:104`). It is one exactly up to a bound on the billable prompt
  tokens (`Billing.EstimateIsWorstCaseIff`, `Billing.QuarterRuleIsExact`).
- The nonce TTL equals twice the skew, and the clock is read before the key lookup and the body, the nonce claimed after.
  For every bound on that lag replay is impossible exactly when the TTL covers both skews, a second and the lag
  (`NonceWindow.NoReplayIffTtlCoversLag`). The code bounds the lag by nothing, so no TTL that Redis accepts is enough for
  all runs (`NonceWindow.NoTtlCoversUnboundedLag`); as shipped, with a lag of at most d, a replay is first checked less than a second
  and d after the window opens and again less than a second and d before it closes (`NonceWindow.ShippedReplayWithLag`).
- The limiter's sorted set counts microseconds, not requests (`RateLimit.AllowedIffMicrosecondsWithinLimit`). Its verdict is
  that of the request count for every limit exactly when no two requests of the window share a microsecond
  (`RateLimit.CountsRequestsIffApart`); any number of requests in one microsecond pass any limit
  (`RateLimit.SameMicrosecondCountsOnce`).
- The ledger's idempotency lookup does not look at the entry type. A credit is posted exactly when no entry of either kind
  holds its (source, source_ref) and the merchant is known (`Ledger.CreditPostedIffUnheld`); after a debit under the reference the credit call succeeds
  and posts nothing (`Ledger.DebitBlocksCredit`).
- Without a provider key the canned reply is charged a flat price that the pre-flight does not look at
  (`Billing.StubIsBilledIff` gives the exact condition, `Billing.UnbilledStub` a failing call).
- A confirmed top-up can still become `token_credited` exactly when a confirmer took it out of `broadcasting` and still waits
  for the credit or has its answer (`EventualCredit.CreditedInTheEndIff`). It can still be posted to the ledger exactly when
  that confirmer's request is under way, whether or not the confirmer still waits (`EventualCredit.PostedInTheEndIff`). All
  ways of failing occur: the confirmer dies before the credit call (`Scenarios.EveryTopupCanBeAbandoned`); it stops waiting
  and the tokens are posted to an order that is never marked (`Scenarios.EveryTopupCanBePostedUnmarked`); or the protected
  route confirms the order, which it does for a top-up created under its own API key
  (`EventualCredit.CheckoutLeavesNoConfirmer`, `Scenarios.EveryTopupUnderTheProtectedKeyCanBeAbandoned`).
- A `pending` order can still leave that status exactly when the `/proof` request that took it is at work and waits for WEA,
  or holds an answer the database will take (`PendingOrders.PendingInTheEndIff`). It is stranded when the request dies
  (`Scenarios.EveryOrderCanBeStranded`), and when WEA refuses with a reason longer than the column: `main.py:463` does not
  cut it as line 452 does (`Scenarios.LongReasonStrands`).
- `/proof` keeps no hash of the signed string, so one string can be settled once on each route, for one order
  (`PipelineTheorems.SettledOnce`, `Scenarios.EveryStringCanSettleOnBothRoutes`).

## Model

| member | source | states |
|---|---|---|
| `PipelineTheorems.MoneyIsConserved` | netstars/x402/src/x402/main.py:654-745 | in every reachable state a merchant's cached balance is the sum of `amount_usdc_micro` over its top-up orders whose credit was posted, each once, minus its debits |
| `PipelineTheorems.CreditedAtMostOnce` | netstars/x402/src/x402/main.py:693-719 | no order has two payment entries, and no lookup of the token service, with its confirmer waiting or not, ever finds one: winning broadcasting → confirmed is what prevents it |
| `PipelineTheorems.OrdersAgreeWithLedger` | netstars/x402/src/x402/main.py:703-719 | `token_credited` names the one entry with that order's id, merchant and amount; an entry implies confirmed or token_credited and a settlement kind that is absent, empty or `token_topup`; other orders have none |
| `PipelineTheorems.OneSuccessPerOrder` | netstars/x402/src/x402/protected_routes.py:276-319 | over all requests on both routes at most one per order is answered 200, and its hash stays on the order in every later state |
| `PipelineTheorems.SettledOnce` | netstars/x402/src/x402/protected_routes.py:201-274 | each signed string is settled at most once per route across all orders, both times for one order, and `/proof` settles once per order; whatever is settled was persisted and accepted for its order, not yet expired at admission |
| `PipelineTheorems.OneEventPerOrder` | netstars/x402/src/x402/main.py:674-721 | each order enqueues at most one of the three events: payment.failed of a failed order, payment.confirmed of a confirmed one that gets no tokens, payment.token_credited of a credited one |
| `PipelineTheorems.VerifiedBeforeUnlock` | netstars/x402/src/x402/protected_routes.py:216-292 | every order past created/expired has a persisted proof accepted for its own amount and nonce |
| `PipelineTheorems.HashWasSettledForTheOrder` | netstars/x402/src/x402/main.py:474-480 | every order from broadcasting to token_credited has a hash no other order has, answered by settle for this very order |
| `PipelineTheorems.OneOrderPerTransaction` | netstars/x402/src/x402/proof.py:203-217 | one signed transaction is a verified proof of one order only, whichever route took it |
| `PipelineTheorems.ChallengeMovesNothing` | netstars/x402/src/x402/protected_routes.py:155-160 | a request without X-PAYMENT changes no existing order, neither when it arrives nor when it is answered, whatever ran in between |
| `PipelineTheorems.ChainDecides` | netstars/x402/src/x402/main.py:671-701 | an order a confirmer closed stands as WEA's answer about its stored hash says: failed on "failed" or an error, otherwise confirmed or credited on "confirmed" or "finalized" without one; credited and failed-on-chain orders were closed by one |
| `PipelineTheorems.ConfirmerPollsTheStoredHash` | netstars/x402/src/x402/main.py:636-649 | however stale its selection, a confirmer asks WEA about the hash that is on the order |
| `OrderHistory.StepMovesRows` | netstars/x402/src/x402/orders.py:126-164 | whatever a task does next, each row stays or moves from one named status to another, writing the one or two columns that go with the move |
| `OrderHistory.StatusTellsColumns` | netstars/x402/src/x402/db.py:12-36 | in every reachable state the status of an order tells which of hash, confirmation time, ledger entry and reason are set; no order is canceled or refunded |
| `OrderHistory.RowsAreKept` | netstars/x402/src/x402/orders.py:139-164 | through every continuation an order keeps its written-once columns, its hash and its confirmation time, and expired, failed and credited orders stay as they are |
| `OrderHistory.OnlyTopupsArePosted` | netstars/x402/src/x402/main.py:260-269 | in every reachable state an order with a payment entry has no settlement kind, an empty one, or `token_topup` |
| `OrderHistory.ProtectedOrdersAreNeverPosted` | netstars/x402/src/x402/protected_routes.py:116-150 | no continuation posts an entry for an order the protected route inserted, not even one that pays it through `/proof` |
| `EventualCredit.CreditedInTheEndIff` | netstars/x402/src/x402/main.py:636-723 | in every reachable state some continuation marks a confirmed top-up token_credited if and only if a confirmer took it out of broadcasting and still waits for the credit or has its answer |
| `EventualCredit.PostedInTheEndIff` | netstars/x402/src/x402/main.py:726-745 | in every reachable state some continuation posts an unposted one if and only if that confirmer's request is under way, with the confirmer waiting or not |
| `EventualCredit.AbandonedForever` | netstars/x402/src/x402/main.py:636-642 | a confirmed order that no confirmer waits for stays confirmed through every continuation |
| `EventualCredit.ForgottenForever` | netstars/x402/src/x402/main.py:730-742 | an unposted one with no request under way also stays unposted |
| `EventualCredit.ReachableClosers` | netstars/x402/src/x402/main.py:693-719 | in every reachable state the confirmer that confirmed a waiting top-up stands at its credit call, has left its request behind, or is done |
| `EventualCredit.AttendedGetsCredited` | netstars/x402/src/x402/main.py:709-719 | from wherever the waiting confirmer stands, at most three of its own steps credit the order, once its merchant has joined the token service |
| `EventualCredit.RequestedGetsPosted` | netstars/token/api/src/token_api/main.py:342-369 | from wherever the request stands, at most two steps post it, once the merchant has joined |
| `EventualCredit.RequestOutlivesItsConfirmer` | netstars/x402/src/x402/main.py:729-742 | a confirmer that stops waiting before the answer leaves a request that still posts the order |
| `EventualCredit.CheckoutLeavesNoConfirmer` | netstars/x402/src/x402/protected_routes.py:276-292 | whenever the protected route confirms an order no confirmer ever will, so a top-up is abandoned at that moment |
| `Scenarios.EveryTopupUnderTheProtectedKeyCanBeAbandoned` | netstars/x402/src/x402/orders.py:71-79 | for every top-up under the protected route's key with an acceptable proof, a request with its idempotency key ends with the top-up confirmed and no confirmer ever |
| `Scenarios.EveryTopupCanBeAbandoned` | netstars/x402/src/x402/main.py:693-709 | for every top-up with an acceptable proof some run ends with its confirmer dead before the credit |
| `Scenarios.EveryTopupCanBePostedUnmarked` | netstars/x402/src/x402/main.py:729-742 | for every such top-up some run loses the confirmer after its request was sent, and then posts the tokens to an order that no continuation marks credited |
| `Scenarios.EveryStringCanSettleOnBothRoutes` | netstars/x402/src/x402/main.py:402-413 | for every acceptable proof under the protected route's key some run settles the string once on each route |
| `PendingOrders.PendingInTheEndIff` | netstars/x402/src/x402/main.py:401-482 | in every reachable state some continuation moves a pending order on if and only if the request that took it waits for WEA, or holds a reason that fits or a hash that fits and no other order has |
| `PendingOrders.StrandedForever` | netstars/x402/src/x402/main.py:401-482 | otherwise it stays pending through every continuation |
| `PendingOrders.ReachableTakers` | netstars/x402/src/x402/main.py:414-445 | in every reachable state the request that took a pending order stands between taking it and moving it on, or is done |
| `PendingOrders.HeldMovesOn` | netstars/x402/src/x402/main.py:446-482 | from wherever that request stands, its own next steps move the order on |
| `Scenarios.EveryOrderCanBeStranded` | netstars/x402/src/x402/main.py:401-445 | for every order with an acceptable proof some run ends with it pending and its request dead |
| `Scenarios.LongReasonStrands` | netstars/x402/src/x402/main.py:457-467 | so does a refusal by WEA whose reason does not fit its column |
| `PipelineSteps.StepKeeps` | netstars/x402/src/x402/main.py:654-723 | every step of every task keeps the shared invariant, its own claim and the guarantee the others rely on |
| `PipelineSteps.NextKeeps` | netstars/x402/src/x402/main.py:401-490 | every action of the system keeps the invariant |
| `PipelineSteps.ReachableInv` | netstars/x402/src/x402/main.py:654-745 | the invariant holds after every sequence of actions |
| `PipelineInvariant.ClaimStable` | netstars/x402/src/x402/main.py:401-420 | what a task relies on about its stale copies survives every step of another task |
| `Handlers.Handler.SubmitProof` | netstars/x402/src/x402/main.py:365-490 | 404 exactly for an unknown order; otherwise a run of the step system from the fetched copy to its end, 200 exactly when the run added that response, and every other code by its cause |
| `Handlers.Handler.LegacyCodeByCause` | netstars/x402/src/x402/main.py:375-490 | which causes make each of these codes, stated cause by cause |
| `Handlers.Handler.AcceptLegacy` | netstars/x402/src/x402/main.py:375-419 | status check, verification, failed-proof row, or proof row and created → pending together, each row spelled out; 400, 409 and 500 each exactly for its causes |
| `Handlers.Handler.SettleLegacy` | netstars/x402/src/x402/main.py:443-468 | the settle call and its three outcomes as one step, with the reason kept of a failure, cut to 255 characters only when WEA was not reached |
| `Handlers.Handler.SettleAndCommit` | netstars/x402/src/x402/main.py:427-490 | steps 3 to 5, with the code for a refusal, a reason or hash the database will not take, and an order that has moved on |
| `Handlers.Handler.AbortLegacy` | netstars/x402/src/x402/main.py:447-467 | pending → failed with the reason, a conflict let pass; 500 exactly for a missing order or a reason over 255 characters, else 502 |
| `Handlers.Handler.CommitLegacy` | netstars/x402/src/x402/main.py:474-490 | pending → broadcasting with the hash; 200 exactly for a pending order and an unused hash that fits, 409 exactly for an order that has moved on, else an uncaught error |
| `Handlers.Handler.ProtectedCheckoutOrder` | netstars/x402/src/x402/protected_routes.py:116-319 | 1a makes or fetches the order of the fixed merchant, key and settlement kind, and the rest is a run of the step system on that copy with the code its cause gives |
| `Handlers.Handler.CheckOut` | netstars/x402/src/x402/protected_routes.py:155-319 | 1b-1k: a run from the fetched copy to its end, 200 exactly when the run added that response; challenge, mismatch, consumed, overdue, replayed and refused payments each get their code |
| `Handlers.Handler.PayFor` | netstars/x402/src/x402/protected_routes.py:216-319 | 1g-1k, with the code for a verifier crash or used string, a refused proof, WEA unreachable or against it, no transaction, and what the order has become |
| `Handlers.Handler.PaymentCodeByCause` | netstars/x402/src/x402/protected_routes.py:216-319 | which causes make each of these codes, stated cause by cause |
| `Handlers.Handler.AdmitCheckout` | netstars/x402/src/x402/protected_routes.py:155-214 | challenge, payload check, status, expiry and replay, in that order; 402, 409 and overdue each exactly for its causes |
| `Handlers.Handler.ExpireOrder` | netstars/x402/src/x402/protected_routes.py:186-199 | created → expired and no other row or status, a conflict let pass, 410 for every order there is |
| `Handlers.Handler.PersistProof` | netstars/x402/src/x402/protected_routes.py:216-250 | the verdict is persisted under the unique hash before anything is sent; 402 exactly for a refused proof, 500 exactly for a verifier crash or a hash taken meanwhile |
| `Handlers.Handler.VerifyRemotely` | netstars/x402/src/x402/protected_routes.py:257-265 | 502 exactly when WEA is not reached, 402 exactly when it says invalid, else on |
| `Handlers.Handler.SettleCheckout` | netstars/x402/src/x402/protected_routes.py:267-274 | the settle call, going on only with a transaction |
| `Handlers.Handler.CommitOrder` | netstars/x402/src/x402/protected_routes.py:276-319 | the three transitions in one transaction; 200 exactly for a created order and an unused hash that fits, 409 exactly for an order that has moved on |
| `Handlers.Handler.ConfirmerAdvanceOne` | netstars/x402/src/x402/main.py:654-723 | a run of the step system from the selected hash to its end |
| `Handlers.Handler.PollStatus` | netstars/x402/src/x402/main.py:665-691 | success exactly on "confirmed" or "finalized" without an error, failure exactly on "failed" or an error that is not of a pending transaction, else wait |
| `Handlers.Handler.FailOrder` | netstars/x402/src/x402/main.py:674-688 | exactly a broadcasting order becomes failed, with "on_chain_error: " and at most 200 characters of WEA's error or "unknown"; announced only by the task that won it |
| `Handlers.Handler.ConfirmOrder` | netstars/x402/src/x402/main.py:693-707 | exactly a broadcasting order becomes confirmed, at the time read; the winner goes on to credit it exactly when its settlement kind is absent, empty or `token_topup`, and else announces it |
| `Handlers.Handler.CreditOrder` | netstars/x402/src/x402/main.py:709-723 | credit call, confirmed → token_credited, announcement |
| `Handlers.Handler.LookUpCredit` | netstars/token/api/src/token_api/ledger.py:76-84 | the lookup of any entry with source x402_payment and the order's id, or nothing exactly when the request fails or the amount is zero |
| `Handlers.Handler.PostCredit` | netstars/token/api/src/token_api/ledger.py:86-129 | the insert that acts on an earlier lookup, entry and balance row spelled out, or the database's refusal of an unknown merchant |
| `Handlers.Handler.MarkCredited` | netstars/x402/src/x402/main.py:711-719 | exactly a confirmed order becomes token_credited, with the entry id |
| `Handlers.Handler.EnqueueEvent` | netstars/x402/src/x402/main.py:596-610 | one event to the order's own URL or the default, none without a URL |
| `Handlers.HandlerRunIsPipelineRun` | netstars/x402/src/x402/main.py:401-490 | a handler's moves, among anything other tasks do, are the step system's own steps: same shared state, same place |
| `Handlers.AnsweredHashStays` | netstars/x402/src/x402/protected_routes.py:294-319 | the hash a handler answered 200 with is, in every later state of the system, on the order the request was for |
| `Handlers.HandlersAnswerAnOrderOnce` | netstars/x402/src/x402/protected_routes.py:276-319 | two handlers, on whichever routes and however interleaved, never both answer 200 for one order |
| `Handlers.HandlersSettleOnce` | netstars/x402/src/x402/protected_routes.py:201-274 | two handlers never settle one signed string on one route nor one order twice on `/proof`, and one string on both only for one order |
| `Orders.OrderTable.TransitionRow` | netstars/x402/src/x402/orders.py:126-164 | the row and only the row moves, or one of the errors leaves the table alone |
| `Orders.OrderTable.CreatePayment` | netstars/x402/src/x402/orders.py:48-117 | answers with the row of the idempotency key or a new one; an error changes nothing and happens only when no insert was possible and no row of the key was visible |
| `Orders.TransitionExactly` | netstars/x402/src/x402/orders.py:139-164 | goes through exactly along the moves listed status by status, from the status asked for, with values their columns hold (96, 255) and a hash no other row has; writes the status and the given columns; not-found and conflict exactly otherwise |
| `Orders.CreateExactly` | netstars/x402/src/x402/orders.py:71-117 | answers with a row of the same API key and idempotency key exactly when there is one, else a created row with empty columns whose (recipient, nonce) is new |
| `Orders.TopupKinds` | netstars/x402/src/x402/main.py:260-269 | tokens are for orders whose settlement kind is absent, empty or `token_topup`, and no other |
| `Orders.TransitionMovesOneRow` | netstars/x402/src/x402/orders.py:22-28 | a transition follows an edge of the table, keeps written-once columns, other rows and all unique keys, and goes strictly down |
| `Orders.RunsNeverReturn` | netstars/x402/src/x402/orders.py:139-164 | over any sequence of transitions no order returns to a status it has left, and statuses without successors are frozen |
| `Orders.InsertKeepsTable` | netstars/x402/src/x402/orders.py:85-117 | a create keeps the unique keys and every existing row |
| `Orders.CreateIsIdempotent` | netstars/x402/src/x402/orders.py:71-111 | two creates with one key answer with one order, whatever happened in between |
| `Gateway.CommitCheckoutOutcome` | netstars/x402/src/x402/protected_routes.py:276-292 | the walk goes through exactly for a created order and an unused hash that fits, and leaves it confirmed with hash and time |
| `Gateway.CommitCheckoutErrors` | netstars/x402/src/x402/protected_routes.py:291-292 | a conflict exactly for an order that has moved on, not found exactly for a missing one |
| `Gateway.AcceptProofOutcome` | netstars/x402/src/x402/main.py:401-419 | proof row and created → pending happen exactly when the order is still created |
| `Gateway.Database.InsertProofRow` | netstars/x402/src/x402/db.py:38-48 | a duplicate hash is refused and changes nothing |
| `Gateway.Database.AcceptProofTx` | netstars/x402/src/x402/main.py:401-419 | both rows or neither |
| `Gateway.Database.CommitCheckoutTx` | netstars/x402/src/x402/protected_routes.py:276-292 | all three transitions or none |
| `Ledger.LedgerService.GetBalance` | netstars/token/api/src/token_api/ledger.py:50-54 | the cached balance, zero without a row |
| `Ledger.LedgerService.CreditMerchant` | netstars/token/api/src/token_api/ledger.py:58-129 | positive amounts only, the existing entry for a known reference, else entry and cache row, both spelled out, or a refusal that changes nothing |
| `Ledger.LedgerService.LockAndInsert` | netstars/token/api/src/token_api/ledger.py:86-129 | entry and balance row written together, the row created when absent; a merchant the foreign key does not find is refused |
| `Ledger.LedgerService.DebitMerchant` | netstars/token/api/src/token_api/ledger.py:132-192 | refused exactly when not positive or above the balance, else entry and cache row, both spelled out; a successful debit always finds its balance row |
| `Ledger.HistoryRefinesCache` | netstars/token/api/src/token_api/ledger.py:1-13 | after every sequence of credits, debits, new merchants and rollbacks: append-only, every `balance_after` is the running net and never negative, the cache equals the history, one credit per reference |
| `Ledger.RepeatedCreditChangesNothing` | netstars/token/api/src/token_api/ledger.py:74-84 | after a credit that succeeded a repeated reference, later and even with another amount or merchant, changes nothing and has the same answer; one that failed had changed nothing |
| `Ledger.CreditPostedIffUnheld` | netstars/token/api/src/token_api/ledger.py:76-129 | a credit is posted exactly when no entry of either kind holds its reference and the merchant is known; it answers with the holding entry exactly when there is one, and is refused otherwise |
| `Ledger.DebitBlocksCredit` | netstars/token/api/src/token_api/ledger.py:76-84 | a debit under a reference keeps every later credit of that reference from being posted |
| `Ledger.AdjustmentNotPosted` | netstars/token/api/src/token_api/ledger.py:63-84 | a reachable ledger on which an admin adjustment back up is not posted |
| `Ledger.CreditKeepsConsistent` | netstars/token/api/src/token_api/ledger.py:86-123 | a credit keeps cache, last entry id and running balances right |
| `Ledger.DebitKeepsConsistent` | netstars/token/api/src/token_api/ledger.py:149-186 | so does a debit, and it never updates a missing row |
| `Ledger.CachedBalanceIsNet` | netstars/token/api/src/token_api/ledger.py:6-9 | the cached balance is credits minus debits and not negative |
| `Shortvec.ShortvecEncode` | sdk/src/netstars/signer.py:51-62 | the loop emits the specified encoding, and refuses what does not fit 16 bits |
| `Shortvec.EncodeBytes` | sdk/src/netstars/signer.py:51-62 | the one, two or three bytes, digit by digit, for every value of 16 bits |
| `Shortvec.ShortvecDecode` | netstars/x402/src/x402/proof.py:59-74 | the shifting loop computes the positional value, with both errors |
| `Shortvec.DecodeBytes` | netstars/x402/src/x402/proof.py:59-74 | value, length and both errors byte by byte, for every buffer and offset |
| `Shortvec.DecodeEncode` | netstars/x402/src/x402/proof.py:59-74 | decode(encode(n) + rest) = (n, length) for all n ≤ 0xFFFF, at any offset, before any bytes |
| `Shortvec.DecodeBounds` | netstars/x402/src/x402/proof.py:64-74 | accepted input takes 1 to 3 bytes inside the buffer and is below 2^21 |
| `Shortvec.EncodeIsShortest` | sdk/src/netstars/signer.py:51-62 | no accepted form is shorter, and a form is the encoding exactly when it has no superfluous zero group |
| `Shortvec.EncodePrefixFree` | sdk/src/netstars/signer.py:51-62 | no encoding is a proper prefix of another |
| `ProofVerifier.ParseLegacyTx` | netstars/x402/src/x402/proof.py:84-98 | the slicing loop yields exactly the specified signatures and message, with every error |
| `ProofVerifier.SplitBuiltWire` | netstars/x402/src/x402/proof.py:84-98 | signatures laid out behind their count come back one by one with the message untouched |
| `ProofVerifier.SplitLosesNothing` | netstars/x402/src/x402/proof.py:84-98 | accepted bytes are prefix, that many signatures and a non-empty message, nothing lost |
| `ProofVerifier.LittleEndianInverse` | netstars/x402/src/x402/proof.py:181-182 | the unpacked amount is the packed one |
| `ProofVerifier.EightBytesRead` | netstars/x402/src/x402/proof.py:181-182 | eight bytes read as an unsigned number, the least significant first |
| `ProofVerifier.WalkInstructions` | netstars/x402/src/x402/proof.py:158-226 | the flag-carrying loop computes the recursive walk |
| `ProofVerifier.CheckSignatures` | netstars/x402/src/x402/proof.py:139-145 | the first required signature that does not verify, if any |
| `ProofVerifier.VerifyMessage` | netstars/x402/src/x402/proof.py:128-234 | all checks in their order on a parsed message |
| `ProofVerifier.VerifyProof` | netstars/x402/src/x402/proof.py:102-234 | accepts exactly the transactions the protocol describes, with the first error otherwise |
| `ProofVerifier.WalkMeaning` | netstars/x402/src/x402/proof.py:164-225 | from any instruction and flags the walk succeeds exactly when what remains is what is still owed |
| `ProofVerifier.AcceptedMessages` | netstars/x402/src/x402/proof.py:128-234 | accepted iff signatures hold, indices resolve, exactly one expected transfer and exactly one expected memo |
| `ProofVerifier.AcceptedExactly` | netstars/x402/src/x402/proof.py:128-234 | the same in full, with program ids, instruction 12, the amount's eight bytes, 6 decimals, account places and memo text |
| `ProofVerifier.VerifySoundAndComplete` | netstars/x402/src/x402/proof.py:102-234 | the same for the whole signed string |
| `ProofVerifier.AcceptedProofReads` | netstars/x402/src/x402/proof.py:228-234 | the accepted result is the first signer, the asked amount, destination and memo, and the first signature |
| `ProofVerifier.OneTransactionOneExpectation` | netstars/x402/src/x402/proof.py:181-217 | accepted for two expectations forces equal amount, nonce, mint and destination |
| `TxBuilders.GatewayInstructions` | netstars/x402/src/x402/tx_builder.py:132-196 | for amounts in 1..2^64−1 exactly these instructions, account by account with flags and data: create-ATA when asked for, the transfer from the payer's token account to the recipient's, the memo; so exactly one payment and its memo |
| `TxBuilders.SdkWire` | sdk/src/netstars/signer.py:106-168 | prefix, signature and message of exactly the transfer and the memo, account by account with flags and data, and exactly which inputs are refused how, unparsable keys and blockhashes included |
| `TxBuilders.BuiltTransactionVerifies` | netstars/x402/src/x402/proof.py:84-234 | what either builder produces is accepted for exactly its values, reading back payer, memo and signature |
| `TxBuilders.BuiltTransactionIsSpecific` | netstars/x402/src/x402/proof.py:181-217 | and for no other amount, nonce, mint or destination |
| `SettlementWorker.Worker.FirstBy` | wea/src/worker.rs:83-93 | ORDER BY … LIMIT 1 returns a least row, and none only when there is none |
| `SettlementWorker.Worker.BroadcastPass` | wea/src/worker.rs:80-113 | the oldest pending row moves to broadcasting with hash and time, or nothing changes |
| `SettlementWorker.Worker.ConfirmPass` | wea/src/worker.rs:116-170 | of the rows broadcasting with a hash the one broadcast first becomes confirmed when the chain says it succeeded and failed when it says rejected, callback pending and due now; any other answer changes nothing |
| `SettlementWorker.Worker.NextDue` | wea/src/worker.rs:177-192 | a due row no other due row precedes by next retry, NULLs first, and none only when none is due |
| `SettlementWorker.Worker.CallbackPass` | wea/src/worker.rs:173-308 | the due row first by next retry is claimed, POSTed and written back: sent, retried after 900, 3600, 21600 or 86400 s, or a dead letter after the fifth failure; or left in flight by a crash |
| `SettlementWorker.EveryStep` | wea/src/worker.rs:80-308 | statuses follow the edges, a POST is made only while confirmed or failed with the callback pending, finished rows are frozen, every change decreases a measure |
| `SettlementWorker.AnswersDecideTheRow` | wea/src/worker.rs:135-163 | over every run: confirmed or done iff the chain once said success of the row while it was broadcasting, failed iff it said rejected, sent iff a POST of a due callback was acknowledged, done iff success and acknowledged |
| `SettlementWorker.FirstBroadcastHash` | wea/src/worker.rs:96-111 | over every run a row is pending exactly until its first broadcast, whose hash it keeps |
| `SettlementWorker.FiveFailuresDeadLetter` | wea/src/worker.rs:265-300 | from any reachable row with a pending callback, passes that come on time and fail POST it until five POSTs are made, and then it is a dead letter |
| `SettlementWorker.FivePostsSpaced` | wea/src/worker.rs:267-296 | at most five POSTs per row, and the one after the k-th failure waits at least 900, 3600, 21600 or 86400 s for it |
| `SettlementWorker.RowsComeToRest` | wea/src/worker.rs:63-77 | however long the worker runs a row is changed at most seven times |
| `SettlementWorker.RunOk` | wea/src/worker.rs:80-308 | the row invariant over every run, with crashes |
| `SettlementWorker.RowsRunIndependently` | wea/src/worker.rs:61-77 | in every log of arrivals and passes over any number of rows each row's history is a run of its own events |
| `SettlementWorker.EveryRowOfTheTable` | wea/src/worker.rs:61-77 | at any time every row of the table obeys the row invariant, with at most five POSTs and seven changes |
| `Webhooks.Deliverer.Enqueue` | netstars/x402/src/x402/webhooks.py:100-125 | a pending row due at once, none without a URL |
| `Webhooks.Deliverer.Tick` | netstars/x402/src/x402/webhooks.py:179-207 | of the rows pending or failed_retrying whose time has come the soonest, at most a batch, are each delivered with the count read at selection; all others stay |
| `Webhooks.Deliverer.SelectDue` | netstars/x402/src/x402/webhooks.py:179-198 | distinct rows that are pending or failed_retrying with next_retry_at ≤ now, and none left out but later ones when the batch is full |
| `Webhooks.Deliverer.DeliverOne` | netstars/x402/src/x402/webhooks.py:209-309 | delivered, dead letter or retry by response class, and nothing written on other exceptions |
| `Webhooks.DueRowsGetOnePost` | netstars/x402/src/x402/webhooks.py:179-246 | a row pending or failed_retrying whose time has come gets exactly one more POST, or one more that is lost; every other row is left alone |
| `Webhooks.PostedUntilTheBound` | netstars/x402/src/x402/webhooks.py:248-260 | over every run of deliveries that come on time and get 429, a 3xx, a 5xx or no answer: one POST each until max(1, MAX_ATTEMPTS), failed_retrying in between, then dead-lettered |
| `Webhooks.RetriesSpaced` | netstars/x402/src/x402/webhooks.py:254-260 | over every run each POST after the first waits at least 48 s, 4 min, 12 min, 48 min, 4.8 h or 19.2 h after the retry was written |
| `Webhooks.BackoffWithinJitter` | netstars/x402/src/x402/webhooks.py:312-317 | every delay is within a fifth, reached at both ends, of 60, 300, 900, 3600, 21600 and from the sixth attempt 86400 s |
| `Webhooks.AttemptsCountPosts` | netstars/x402/src/x402/webhooks.py:209-309 | over every run attempt_count is the number of POSTs answered or failed in transport, bounded by MAX_ATTEMPTS, each retry spaced by at least 0.8 of its backoff |
| `Webhooks.EveryPostCountedIffNoneLost` | netstars/x402/src/x402/webhooks.py:225-246 | it is the number of all POSTs exactly when none ended in another exception |
| `Webhooks.TerminalIsAbsorbing` | netstars/x402/src/x402/webhooks.py:262-292 | delivered and dead-lettered rows never change |
| `Webhooks.LastPostDecides` | netstars/x402/src/x402/webhooks.py:230-254 | delivered iff the last POST got 2xx, dead-lettered iff it was refused or the last allowed |
| `Webhooks.LongestBackoffUnused` | netstars/x402/src/x402/webhooks.py:60-63 | with six attempts no retry is scheduled beyond 1.2·21600 s |
| `RateLimit.Limiter.CheckRpmLimit` | netstars/token/api/src/token_api/auth.py:156-178 | prune, add, count, expire; limit 0 touches nothing |
| `RateLimit.WindowIsWholeLog` | netstars/token/api/src/token_api/auth.py:164-176 | on a monotone clock the pruned set is the whole log's requests in (t−60, t], and the key's expiry drops none |
| `RateLimit.AllowedIffMicrosecondsWithinLimit` | netstars/token/api/src/token_api/auth.py:164-178 | a request is allowed iff the requests of (t−60, t] in the whole log came in at most `limit` microseconds |
| `RateLimit.CountsRequestsIffApart` | netstars/token/api/src/token_api/auth.py:170-178 | that is the verdict of the request count for every limit iff no two requests of that window share a microsecond |
| `RateLimit.NoWindowExceedsLimit` | netstars/token/api/src/token_api/auth.py:156-178 | in every half-open 60 s window over any run the allowed requests came in at most `limit` microseconds, so number at most `limit` unless two of them share one |
| `RateLimit.SameMicrosecondCountsOnce` | netstars/token/api/src/token_api/auth.py:170-171 | any number of requests in one microsecond are all allowed under any limit |
| `NonceWindow.Verifier.SeenNonce` | netstars/token/api/src/token_api/auth.py:224-229 | claims a free nonce for the TTL and reports a held one; a TTL that is not positive is refused |
| `NonceWindow.Verifier.VerifyRequest` | netstars/token/api/src/token_api/auth.py:265-297 | window, then signature, then claim; only a claimed nonce is accepted and nothing is claimed before |
| `NonceWindow.AcceptedIff` | netstars/token/api/src/token_api/auth.py:265-297 | over every run a request is accepted iff its timestamp is within the skew, its signature is good, Redis takes the TTL, and no earlier accepted request used its key and nonce less than TTL before |
| `NonceWindow.HeldByAnAcceptance` | netstars/token/api/src/token_api/auth.py:224-229 | every nonce held at a time was claimed by an accepted request less than TTL earlier |
| `NonceWindow.RefusedClaimsNothing` | netstars/token/api/src/token_api/auth.py:270-292 | dropping a request with a bad signature or out of the window from any log leaves the same claims |
| `NonceWindow.RefusedLeavesNoTrace` | netstars/token/api/src/token_api/auth.py:270-292 | it is never accepted, and every other verdict of the log is the same without it |
| `NonceWindow.AcceptancesAreTtlApart` | netstars/token/api/src/token_api/auth.py:224-229 | two acceptances of one (key, nonce) are at least the TTL apart, over any run |
| `NonceWindow.LongTtlPreventsReplay` | netstars/token/api/src/token_api/auth.py:265-297 | a TTL covering both skews, a second and the check-to-claim lag excludes replay |
| `NonceWindow.NoReplayIffTtlCoversLag` | netstars/token/api/src/token_api/auth.py:265-297 | for every bound on the lag between check and claim, replay is impossible in every run exactly when the TTL covers both skews, a second and the lag, or is refused by Redis |
| `NonceWindow.NoTtlCoversUnboundedLag` | netstars/token/api/src/token_api/auth.py:270-296 | without such a bound every skew and every TTL Redis accepts has a run with a replay |
| `NonceWindow.NoReplayIffTtlExceedsTwiceSkew` | netstars/token/api/src/token_api/auth.py:47-48 | the case of no lag: exactly when TTL > 2·skew, or Redis refuses it |
| `NonceWindow.ReplayWhenTtlIsShort` | netstars/token/api/src/token_api/auth.py:265-297 | the run that replays otherwise, for every positive TTL and every lag |
| `NonceWindow.ReplayAtTheEdges` | netstars/token/api/src/token_api/auth.py:265-297 | for every skew, TTL and lag a replay's two checks lie within the slack of the window's two ends |
| `NonceWindow.ShippedReplayWithLag` | netstars/token/api/src/token_api/auth.py:47-48 | with 600 = 2·300 and lag d: within a second and d of the window's start, and of its end |
| `NonceWindow.ShippedReplayIsOneInstant` | netstars/token/api/src/token_api/auth.py:47-48 | with no lag: in second ts−300 and in second ts+300 |
| `Billing.Preflight` | netstars/token/api/src/token_api/main.py:475-498 | refuses exactly when the balance is below the estimate |
| `Billing.Settle` | netstars/token/api/src/token_api/main.py:551-607 | debits the cost of the reported usage, or of the canned reply without a provider key; a refusal leaves the ledger as it was |
| `Billing.EstimateIsWorstCaseIff` | netstars/token/api/src/token_api/providers/router.py:98-121 | for every model the estimate covers all usages of up to b billable prompt tokens exactly when the tokens beyond the chars/4 rule fit in the remainder its division drops |
| `Billing.QuarterRuleIsExact` | netstars/token/api/src/token_api/providers/router.py:38-55 | for every price but one that bound is max(1, chars div 4) itself |
| `Billing.QuarterRuleForRequests` | netstars/token/api/src/token_api/providers/router.py:113-126 | the same for a request: the bound is one token or a quarter of the characters of all its turns and its system prompt |
| `Billing.PricesPerThousand` | netstars/token/api/src/token_api/providers/router.py:38-55 | what a thousand prompt tokens and a thousand completion tokens cost, model by model |
| `Billing.StubCharge` | netstars/token/api/src/token_api/main.py:551-574 | the flat charge in characters: five for every four of the conversation, and for every four of the reply |
| `Billing.EstimateCoversQuarterRule` | netstars/token/api/src/token_api/providers/router.py:113-126 | within the rule settle cost ≤ estimate for every priced model and the default |
| `Billing.PassedPreflightIsBilled` | netstars/token/api/src/token_api/main.py:475-576 | a passed pre-flight carries through any credits, rollbacks and other merchants' debits: the debit succeeds and takes the settled cost |
| `Billing.PreflightSufficesIff` | netstars/token/api/src/token_api/main.py:475-576 | with a provider: on every reachable ledger and interleaving a passed pre-flight is billed, for all usages of up to b billable prompt tokens, exactly under the condition of `EstimateIsWorstCaseIff` |
| `Billing.StubIsBilledIff` | netstars/token/api/src/token_api/main.py:551-574 | without one: exactly when 5 tokens per reply token are within the model's price for the request |
| `Billing.StubIsBilledAtFullPrices` | netstars/token/api/src/token_api/main.py:551-574 | at prompt prices of 5000 and more it is enough that max_tokens covers the reply |
| `Billing.UnbilledCalls` | netstars/token/api/src/token_api/main.py:577-599 | on a reachable ledger: one prompt token over, or one debit in between, and the call goes unbilled |
| `Billing.UnbilledStub` | netstars/token/api/src/token_api/main.py:572-599 | a short stub call estimated at 4 and charged 85 |
| `Billing.RoundingOverManyCalls` | netstars/token/api/src/token_api/providers/router.py:113-121 | over n calls less than n tokens are rounded away, and at most one is added per call worth less than one |
| `Ulid.Encode` | netstars/x402/src/x402/ulid_util.py:22-27 | the shift-and-reverse loop emits the last `length` base-32 digits, most significant first |
| `Ulid.NewUlid` | netstars/x402/src/x402/ulid_util.py:15-19 | ten digits of the clock cut to 48 bits, sixteen of the random bits |
| `Ulid.DecodeEncode` | netstars/x402/src/x402/ulid_util.py:22-27 | decoding gives n back for every n < 32^length |
| `Ulid.EncodeDecode` | netstars/x402/src/x402/ulid_util.py:22-27 | every Crockford string is the encoding of its value |
| `Ulid.EncodePreservesOrder` | netstars/x402/src/x402/ulid_util.py:22-27 | numbers that fit compare as their encodings do, both ways |
| `Ulid.EncodeSplits` | netstars/x402/src/x402/ulid_util.py:19-27 | the two parts together are the encoding of one 128-bit number |
| `Ulid.IdsOrderByTimeThenRandom` | netstars/x402/src/x402/ulid_util.py:15-19 | ids compare exactly as (48-bit time, 80-bit random), as sections "Sorting" and "Encoding" of the ULID specification ask |
| `Ulid.IdReadsBack` | netstars/x402/src/x402/ulid_util.py:15-19 | 26 Crockford characters from which both parts can be read back |
| `Ulid.WrappedClockBreaksOrder` | netstars/x402/src/x402/ulid_util.py:16 | at the 48-bit wrap a later id sorts before an earlier one |

## Left out

- Eventual delivery and eventual credit as liveness: the code has no recovery of `in_flight` callbacks, `confirmed` top-ups or `pending` orders. Which orders can still move is proved; that the scheduler lets them, or that a merchant joins the token service, is not stated.
- String comparison: keys compare exactly here. The gateway's and the token service's tables use the collation utf8mb4_0900_ai_ci, under which "K" and "k" are one idempotency key, one merchant and one transaction hash.
- Column widths other than those of `tx_hash` and `status_reason`.
- RateLimit.Limiter.CheckRpmLimit: takes its four Redis commands as one step. The source sends them without a Redis transaction, so another client's commands may fall between them; the limiter's theorems are about runs in which they do not.
- Columns that only report: the worker's `confirmed_at`, `status_reason` and `callback_last_attempt`, and the deliverer's response body, delivery time and last attempt time.
- Overlapping confirm passes: `confirm_pass` takes no row lock, so the worker properties are those of the single-process worker that ships.
- The endless loops of the worker, the confirmer and the deliverer: their passes are methods, and every order and number of passes is covered by the runs.
- `_confirmer_tick`: the rows of one tick are separate tasks started when each was selected, which allows more interleavings than the tick's sequence.
- AI-call debits inside the step system are one atomic transaction each, because the debit locks its row before it reads.
- Times: the worker's properties are over one clock in real seconds, the limiter's over a monotone clock with microsecond readings, the nonce window's over one clock in milliseconds.
- Overflow of DECIMAL(30) balances and of 64-bit row ids.
- TPM limits, the agent-key cache, key rotation and the internal-auth shortcut: single comparisons.
- The statuses `refunded` and `canceled`, and pending → expired: in the transition table, reached by no code.
- Amount, network and resource checks of the X-PAYMENT header (`netstars/x402/src/x402/protocol.py`): their verdict is an arbitrary answer from outside.
- The consoles' direct demo credit (`haba/src/app/api/enterprise/topup/route.ts`): it posts credits without an order, so the money properties are about the gateway pipeline.
- Demo seeding of non-zero balances; the ledger starts empty, with or without zero balance rows.
- Solana RPC, HTTP clients, KMS, provider adapters, consoles, invoices, anomaly and reconciliation jobs.
