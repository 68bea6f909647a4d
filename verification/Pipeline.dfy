/** The payment-to-credit pipeline as one step system: two gateway routes, any number of confirmers, the
    token ledger.  One database transaction is one step, every call to another service is a step
    boundary, and a task acts on the copies of rows it has read. */
module Pipeline {
  import opened Wrappers
  import opened Orders
  import opened Gateway
  import L = Ledger
  import P = ProofVerifier

  // The gateway's configuration: deposit recipient, USDC mint, default webhook URL ("" = none).
  datatype Config = Config(chain: P.Chain, recipient: P.Key, mint: P.Key, defaultUrl: string)

  datatype EventKind = PaymentConfirmed | PaymentFailed | PaymentTokenCredited
  datatype Event = Event(orderId: string, kind: EventKind, url: string)

  datatype Route = Checkout | Legacy

  // What is observed of the run: calls of the facilitator's settle with its answer, and 200 responses.
  // `admittedAt` is the clock reading of the expiry check, which only the protected route makes.
  datatype SettleCall = SettleCall(route: Route, task: nat, orderId: string, tx: string, row: nat,
                                   admittedAt: Option<int>, answer: Option<string>)
  datatype Response = Response(task: nat, orderId: string, txHash: string)

  // Who took an order out of `created`, and with which proof row.
  datatype Taker = Taker(task: nat, row: nat)

  // What WEA said about a transaction.
  datatype ChainAnswer = ChainAnswer(status: string, err: Option<string>)

  // Which confirmer took an order out of `broadcasting`, on which answer about which hash.
  datatype Closer = Closer(task: nat, txHash: string, answer: ChainAnswer)

  /** The shared state.  `settles`, `responses`, `takers` and `closers` only record the run: no step
      reads them. */
  datatype Core = Core(orders: Table, proofs: seq<ProofRow>, ledger: L.State, events: seq<Event>,
                       settles: seq<SettleCall>, responses: seq<Response>,
                       takers: map<string, Taker>, closers: map<string, Closer>)

  /** Where a task stands, with the stale copies it holds. */
  datatype Pc =
    | Done
    // protected checkout route
    | CheckoutFetched(order: Order, xPayment: Option<string>)
    | CheckoutExpiring(order: Order)
    | CheckoutFresh(order: Order, tx: string, admittedAt: int)
    | CheckoutPersisted(order: Order, tx: string, row: nat, admittedAt: int)
    | CheckoutVerified(order: Order, tx: string, row: nat, admittedAt: int)
    | CheckoutSettled(order: Order, tx: string, row: nat, txHash: string)
    // legacy /proof route
    | LegacyFetched(order: Order, tx: string)
    | LegacyPending(order: Order, tx: string, row: nat)
    | LegacyFailing(order: Order, row: nat, reason: string)
    | LegacySettled(order: Order, tx: string, row: nat, txHash: string)
    // confirmer
    | Selected(orderId: string, txHash: string)
    | Failing(orderId: string, txHash: string, answer: ChainAnswer)
    | Confirming(orderId: string, txHash: string, answer: ChainAnswer)
    | Crediting(order: Order)
    | LookedUp(order: Order, found: Option<L.Entry>)
    | Credited(order: Order, entryId: nat)
    | Notifying(order: Order, kind: EventKind)
    // the token service's request, once the confirmer that sent it has timed out or died
    | Orphaned(order: Order)
    | OrphanedLookedUp(order: Order, found: Option<L.Entry>)

  type Tasks = map<nat, Pc>

  datatype System = System(core: Core, tasks: Tasks)

  // What the outside answers a step: the clock, whether the other service was reached, yes/no, the facilitator's
  // transaction, the chain status.
  datatype Env = Env(now: int, reached: bool, yes: bool, settled: Option<string>, chain: ChainAnswer, reason: string)

  function ExpectationOf(cfg: Config, info: OrderInfo): P.Expectation {
    P.Expectation(cfg.recipient, info.amount, info.nonce, cfg.mint)
  }

  function ProofFor(cfg: Config, tx: string, info: OrderInfo): Result<P.ProofResult, P.ProofError> {
    P.VerifySpec(cfg.chain, tx, ExpectationOf(cfg, info))
  }

  // ---------- protected checkout route ----------

  /** 1b-1f: answer the challenge, reject a consumed order, turn to expiry, or look for a replay. */
  function CheckoutAdmit(c: Core, o: Order, xPayment: Option<string>, env: Env): (Core, Pc) {
    if xPayment.None? || !env.yes || o.status != Created then (c, Done)
    else if o.info.expiresAt < env.now then (c, CheckoutExpiring(o))
    else if HashSeen(c.proofs, xPayment.value) then (c, Done)
    else (c, CheckoutFresh(o, xPayment.value, env.now))
  }

  function CheckoutExpire(c: Core, o: Order): (Core, Pc) {
    match Transition(c.orders, o.info.id, Some(Created), Expired, NO_UPDATES)
    case Ok(t) => (c.(orders := t), Done)
    case Err(_) => (c, Done)
  }

  /** 1g-1h: verify locally and insert the proof row under its unique hash. */
  function CheckoutPersist(cfg: Config, c: Core, t: nat, o: Order, tx: string, admittedAt: int): (Core, Pc) {
    var verdict := ProofFor(cfg, tx, o.info);
    if verdict == Err(P.IndexOutOfRange) then (c, Done)
    else
      match InsertProof(c.proofs, ProofRow(o.info.id, tx, Some(tx), verdict.Ok?, t))
      case Err(_) => (c, Done)
      case Ok(proofs) =>
        (c.(proofs := proofs), if verdict.Ok? then CheckoutPersisted(o, tx, |c.proofs|, admittedAt) else Done)
  }

  function RecordSettle(c: Core, call: SettleCall): Core {
    c.(settles := c.settles + [call])
  }

  /** 1i, second call. */
  function CheckoutSettle(c: Core, t: nat, o: Order, tx: string, row: nat, admittedAt: int, env: Env): (Core, Pc) {
    (RecordSettle(c, SettleCall(Checkout, t, o.info.id, tx, row, Some(admittedAt), env.settled)),
     if env.settled.Some? then CheckoutSettled(o, tx, row, env.settled.value) else Done)
  }

  /** 1j-1k. */
  function CheckoutCommit(c: Core, t: nat, o: Order, row: nat, txHash: string, now: int): (Core, Pc) {
    match CommitCheckout(c.orders, o.info.id, txHash, now)
    case Err(_) => (c, Done)
    case Ok(orders) =>
      (c.(orders := orders, takers := c.takers[o.info.id := Taker(t, row)],
          responses := c.responses + [Response(t, o.info.id, txHash)]), Done)
  }

  // ---------- legacy /proof route ----------

  function LegacyAccept(cfg: Config, c: Core, t: nat, o: Order, tx: string): (Core, Pc) {
    var verdict := ProofFor(cfg, tx, o.info);
    if o.status != Created || verdict == Err(P.IndexOutOfRange) then (c, Done)
    else if verdict.Err? then
      (c.(proofs := c.proofs + [ProofRow(o.info.id, tx, None, false, t)]), Done)
    else
      match AcceptProof(Store(c.orders, c.proofs), ProofRow(o.info.id, tx, None, true, t))
      case Err(_) => (c, Done)
      case Ok(s) =>
        (c.(orders := s.orders, proofs := s.proofs, takers := c.takers[o.info.id := Taker(t, |c.proofs|)]),
         LegacyPending(s.orders[o.info.id], tx, |c.proofs|))
  }

  /** The reason kept of a settle that failed: cut to the column when WEA was not reached, whole when it refused. */
  function SettleFailure(env: Env): string {
    if env.reached then "wea_settle_rejected: " + env.reason
    else
      var note := "wea_settle_failed: " + env.reason;
      if |note| > REASON_WIDTH then note[..REASON_WIDTH] else note
  }

  function LegacySettle(c: Core, t: nat, o: Order, tx: string, row: nat, env: Env): (Core, Pc) {
    (RecordSettle(c, SettleCall(Legacy, t, o.info.id, tx, row, None, env.settled)),
     if env.settled.Some? then LegacySettled(o, tx, row, env.settled.value) else LegacyFailing(o, row, SettleFailure(env)))
  }

  function LegacyAbort(c: Core, o: Order, reason: string): (Core, Pc) {
    match Transition(c.orders, o.info.id, Some(Pending), Failed, NO_UPDATES.(reason := Some(reason)))
    case Ok(t) => (c.(orders := t), Done)
    case Err(_) => (c, Done)
  }

  function LegacyCommit(c: Core, t: nat, o: Order, txHash: string): (Core, Pc) {
    match Transition(c.orders, o.info.id, Some(Pending), Broadcasting, NO_UPDATES.(txHash := Some(txHash)))
    case Ok(orders) => (c.(orders := orders, responses := c.responses + [Response(t, o.info.id, txHash)]), Done)
    case Err(_) => (c, Done)
  }

  // ---------- confirmer ----------

  /** The answer of WEA about the selected transaction. */
  function Poll(c: Core, id: string, txHash: string, env: Env): (Core, Pc) {
    if !env.reached || env.chain.status == "pending" then (c, Done)
    else if env.chain.status == "failed" || env.chain.err.Some? then (c, Failing(id, txHash, env.chain))
    else if env.chain.status != "confirmed" && env.chain.status != "finalized" then (c, Done)
    else (c, Confirming(id, txHash, env.chain))
  }

  function FailureNote(answer: ChainAnswer): Updates {
    var detail := if answer.err.Some? && answer.err.value != "" then answer.err.value else "unknown";
    NO_UPDATES.(reason := Some("on_chain_error: " + if |detail| > 200 then detail[..200] else detail))
  }

  function FailOnChain(c: Core, t: nat, id: string, txHash: string, answer: ChainAnswer): (Core, Pc) {
    match Transition(c.orders, id, Some(Broadcasting), Failed, FailureNote(answer))
    case Ok(orders) =>
      (c.(orders := orders, closers := c.closers[id := Closer(t, txHash, answer)]), Notifying(orders[id], PaymentFailed))
    case Err(_) => (c, Done)
  }

  function Confirm(c: Core, t: nat, id: string, txHash: string, answer: ChainAnswer, now: int): (Core, Pc) {
    match Transition(c.orders, id, Some(Broadcasting), Confirmed, NO_UPDATES.(confirmedAt := Some(now)))
    case Ok(orders) =>
      (c.(orders := orders, closers := c.closers[id := Closer(t, txHash, answer)]),
       if IsTopup(orders[id].info) then Crediting(orders[id]) else Notifying(orders[id], PaymentConfirmed))
    case Err(_) => (c, Done)
  }

  const TOKEN_PER_USDC := 1_000_000

  function Tokens(amountUsdcMicro: nat): nat {
    amountUsdcMicro * TOKEN_PER_USDC / 1_000_000
  }

  /** The token service's idempotency lookup; `env.yes` is false when it refuses the request. */
  function CreditLookup(c: Core, o: Order, env: Env): (Core, Pc) {
    if !env.reached || !env.yes || Tokens(o.info.amount) <= 0 then (c, Done)
    else (c, LookedUp(o, L.FindRef(c.ledger.entries, L.X402Payment, o.info.id)))
  }

  /** Its lock, insert and cache update, on whatever the lookup had found; an unknown merchant is refused. */
  function CreditInsert(c: Core, o: Order, found: Option<L.Entry>): (Core, Pc) {
    if found.Some? then (c, Credited(o, found.value.id))
    else
      var (ledger, r) := L.InsertCredit(c.ledger, o.info.merchant, Tokens(o.info.amount), L.X402Payment, Some(o.info.id));
      match r
      case Ok(e) => (c.(ledger := ledger), Credited(o, e.id))
      case Err(_) => (c, Done)
  }

  /** The same two steps when nobody waits for the answer any more. */
  function OrphanLookup(c: Core, o: Order, env: Env): (Core, Pc) {
    var (c', pc) := CreditLookup(c, o, env);
    (c', if pc.LookedUp? then OrphanedLookedUp(o, pc.found) else Done)
  }

  function OrphanInsert(c: Core, o: Order, found: Option<L.Entry>): (Core, Pc) {
    (CreditInsert(c, o, found).0, Done)
  }

  /** The confirmer's request goes on without it: its read times out after five seconds, or it dies. */
  function WithoutReply(pc: Pc): Pc {
    match pc
    case Crediting(o) => Orphaned(o)
    case LookedUp(o, found) => OrphanedLookedUp(o, found)
    case _ => pc
  }

  function FinishCredit(c: Core, o: Order, entryId: nat): (Core, Pc) {
    match Transition(c.orders, o.info.id, Some(Confirmed), TokenCredited, NO_UPDATES.(ledgerEntryId := Some(entryId)))
    case Ok(orders) => (c.(orders := orders), Notifying(orders[o.info.id], PaymentTokenCredited))
    case Err(_) => (c, Done)
  }

  function WebhookUrl(cfg: Config, o: Order): string {
    if o.info.webhookUrl.Some? && o.info.webhookUrl.value != "" then o.info.webhookUrl.value else cfg.defaultUrl
  }

  function Notify(cfg: Config, c: Core, o: Order, kind: EventKind): (Core, Pc) {
    if WebhookUrl(cfg, o) == "" then (c, Done)
    else (c.(events := c.events + [Event(o.info.id, kind, WebhookUrl(cfg, o))]), Done)
  }

  // ---------- the step relation, as a function of the step taken ----------

  /** The next step of task t standing at pc. */
  function Step(cfg: Config, c: Core, t: nat, pc: Pc, env: Env): (Core, Pc) {
    match pc
    case Done => (c, Done)
    case CheckoutFetched(o, xPayment) => CheckoutAdmit(c, o, xPayment, env)
    case CheckoutExpiring(o) => CheckoutExpire(c, o)
    case CheckoutFresh(o, tx, at) => CheckoutPersist(cfg, c, t, o, tx, at)
    case CheckoutPersisted(o, tx, row, at) => (c, if env.reached && env.yes then CheckoutVerified(o, tx, row, at) else Done)
    case CheckoutVerified(o, tx, row, at) => CheckoutSettle(c, t, o, tx, row, at, env)
    case CheckoutSettled(o, tx, row, txHash) => CheckoutCommit(c, t, o, row, txHash, env.now)
    case LegacyFetched(o, tx) => LegacyAccept(cfg, c, t, o, tx)
    case LegacyPending(o, tx, row) => LegacySettle(c, t, o, tx, row, env)
    case LegacyFailing(o, row, reason) => LegacyAbort(c, o, reason)
    case LegacySettled(o, tx, row, txHash) => LegacyCommit(c, t, o, txHash)
    case Selected(id, txHash) => Poll(c, id, txHash, env)
    case Failing(id, txHash, answer) => FailOnChain(c, t, id, txHash, answer)
    case Confirming(id, txHash, answer) => Confirm(c, t, id, txHash, answer, env.now)
    case Crediting(o) => CreditLookup(c, o, env)
    case LookedUp(o, found) => CreditInsert(c, o, found)
    case Credited(o, entryId) => FinishCredit(c, o, entryId)
    case Notifying(o, kind) => Notify(cfg, c, o, kind)
    case Orphaned(o) => OrphanLookup(c, o, env)
    case OrphanedLookedUp(o, found) => OrphanInsert(c, o, found)
  }

  const PROTECTED_API_KEY := "ak_x402_protected"
  const PROTECTED_MERCHANT := "haba"
  const MERCHANT_CHECKOUT := "merchant_checkout"

  datatype Action =
    | CreateOrder(asked: OrderInfo, answer: Order)                                        // POST /v1/payments
    | StartCheckout(task: nat, asked: OrderInfo, answer: Order, xPayment: Option<string>) // 1a
    | StartLegacy(task: nat, orderId: string, tx: string)
    | StartConfirm(task: nat, orderId: string)                                            // one row of a tick
    | Run(task: nat, env: Env)
    | Die(task: nat)
    | LoseReply(task: nat)
    | Register(merchant: string)                                                          // a merchant joins the token service
    | DebitCall(merchant: string, amount: int)                                            // an AI call is billed
    | LedgerRollback

  ghost predicate MayCreate(cfg: Config, t: Table, asked: OrderInfo, answer: Order) {
    asked.amount > 0 && asked.recipient == cfg.recipient && MayReturn(t, asked, answer)
  }

  /** An action whose guard does not hold changes nothing. */
  ghost function Next(cfg: Config, s: System, a: Action): System {
    var c := s.core;
    match a
    case CreateOrder(asked, answer) =>
      if MayCreate(cfg, c.orders, asked, answer) then s.(core := c.(orders := Insert(c.orders, answer))) else s
    case StartCheckout(t, asked, answer, xPayment) =>
      if && t !in s.tasks && MayCreate(cfg, c.orders, asked, answer) && asked.apiKey == PROTECTED_API_KEY
         && asked.merchant == PROTECTED_MERCHANT && asked.kind == Some(MERCHANT_CHECKOUT)
      then System(c.(orders := Insert(c.orders, answer)), s.tasks[t := CheckoutFetched(answer, xPayment)])
      else s
    case StartLegacy(t, id, tx) =>
      if t !in s.tasks && id in c.orders then s.(tasks := s.tasks[t := LegacyFetched(c.orders[id], tx)]) else s
    case StartConfirm(t, id) =>
      if t !in s.tasks && id in c.orders && c.orders[id].status == Broadcasting && c.orders[id].txHash.Some?
      then s.(tasks := s.tasks[t := Selected(id, c.orders[id].txHash.value)]) else s
    case Run(t, env) =>
      if t in s.tasks then
        var (c', pc) := Step(cfg, c, t, s.tasks[t], env);
        System(c', s.tasks[t := pc])
      else s
    case Die(t) => s.(tasks := s.tasks[t := Done])
    case LoseReply(t) => if t in s.tasks then s.(tasks := s.tasks[t := WithoutReply(s.tasks[t])]) else s
    case Register(m) => s.(core := c.(ledger := c.ledger.(merchants := c.ledger.merchants + {m})))
    case DebitCall(m, amount) => s.(core := c.(ledger := L.DebitSpec(c.ledger, m, amount, L.AiCall, None).0))
    case LedgerRollback => s.(core := c.(ledger := c.ledger.(nextId := c.ledger.nextId + 1)))
  }

  /** No orders and no history yet; the token service may have been seeded with empty balance rows. */
  ghost predicate Initial(s: System) {
    && s.core.orders == map[] && s.core.proofs == [] && s.core.events == []
    && s.core.settles == [] && s.core.responses == [] && s.core.takers == map[] && s.core.closers == map[]
    && s.core.ledger.entries == [] && L.IsSeed(s.core.ledger.balances, s.core.ledger.merchants)
    && s.tasks == map[]
  }

  ghost function Execute(cfg: Config, s: System, actions: seq<Action>): System
    decreases |actions|
  {
    if actions == [] then s
    else Next(cfg, Execute(cfg, s, actions[..|actions| - 1]), actions[|actions| - 1])
  }
}
