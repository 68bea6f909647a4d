/** Runs that show the conditions on credited, posted and pending orders to matter: each is a run of the step system for
    every order, transaction and hash it speaks of. */
module Scenarios {
  import opened Wrappers
  import opened Orders
  import opened Gateway
  import opened Pipeline
  import opened PipelineInvariant
  import T = PipelineTheorems
  import E = EventualCredit
  import O = PendingOrders
  import L = Ledger

  // ---------- runs, one action at a time ----------

  ghost predicate Reaches(cfg: Config, s: System, s': System) {
    exists actions :: Execute(cfg, s, actions) == s'
  }

  lemma Stay(cfg: Config, s: System)
    ensures Reaches(cfg, s, s)
  {
    assert Execute(cfg, s, []) == s;
  }

  lemma Go(cfg: Config, s: System, now: System, a: Action) returns (s': System)
    requires Reaches(cfg, s, now)
    ensures s' == Next(cfg, now, a) && Reaches(cfg, s, s')
  {
    hide Next;
    s' := Next(cfg, now, a);
    var actions :| Execute(cfg, s, actions) == now;
    T.OneMoreAction(cfg, s, actions, a);
  }

  lemma GoStep(cfg: Config, s: System, now: System, t: nat, e: Env) returns (s': System)
    requires Reaches(cfg, s, now) && t in now.tasks
    ensures s' == System(Step(cfg, now.core, t, now.tasks[t], e).0, now.tasks[t := Step(cfg, now.core, t, now.tasks[t], e).1])
    ensures Reaches(cfg, s, s')
  {
    s' := Go(cfg, s, now, Run(t, e));
    hide Step;
  }

  /** There is one order, standing at `o`, and the ledger is empty. */
  ghost predicate OneOrder(s: System, o: Order) {
    s.core.orders == map[o.info.id := o] && s.core.ledger.entries == []
  }

  /** It is a fresh order a client may pay with this string and this hash. */
  predicate Payable(cfg: Config, info: OrderInfo, tx: string, txHash: string) {
    info.recipient == cfg.recipient && info.amount > 0 && ProofFor(cfg, tx, info).Ok? && |txHash| <= TX_HASH_WIDTH
  }

  /** Everything goes well outside, at the last moment before the order expires. */
  function Fine(info: OrderInfo, txHash: string): Env {
    Env(info.expiresAt, true, true, Some(txHash), ChainAnswer("finalized", None), "")
  }

  lemma Create(cfg: Config, s: System, info: OrderInfo) returns (s': System)
    requires Initial(s) && info.recipient == cfg.recipient && info.amount > 0
    ensures s' == System(s.core.(orders := map[info.id := FreshOrder(info)]), map[]) && Reaches(cfg, s, s')
    ensures OneOrder(s', FreshOrder(info))
  {
    hide Step;
    Stay(cfg, s);
    assert MayCreate(cfg, s.core.orders, info, FreshOrder(info));
    assert Insert(s.core.orders, FreshOrder(info)) == map[info.id := FreshOrder(info)];
    s' := Go(cfg, s, s, CreateOrder(info, FreshOrder(info)));
  }

  // ---------- the /proof route ----------

  lemma StartProof(cfg: Config, s: System, now: System, t: nat, o: Order, tx: string) returns (s': System)
    requires Reaches(cfg, s, now) && OneOrder(now, o) && t !in now.tasks
    ensures s' == now.(tasks := now.tasks[t := LegacyFetched(o, tx)]) && Reaches(cfg, s, s')
  {
    s' := Go(cfg, s, now, StartLegacy(t, o.info.id, tx));
  }

  lemma TakeByProof(cfg: Config, s: System, now: System, t: nat, o: Order, tx: string, e: Env) returns (s': System)
    requires Reaches(cfg, s, now) && OneOrder(now, o) && t in now.tasks && now.tasks[t] == LegacyFetched(o, tx)
    requires o.status == Created && ProofFor(cfg, tx, o.info).Ok?
    ensures Reaches(cfg, s, s') && OneOrder(s', o.(status := Pending))
    ensures s'.tasks == now.tasks[t := LegacyPending(o.(status := Pending), tx, |now.core.proofs|)]
    ensures s'.core.settles == now.core.settles && o.info.id in s'.core.takers && s'.core.takers[o.info.id].task == t
  {
    hide ProofFor, Reaches;
    s' := GoStep(cfg, s, now, t, e);
    assert now.core.orders[o.info.id := o.(status := Pending)] == map[o.info.id := o.(status := Pending)];
  }

  lemma SettleProof(cfg: Config, s: System, now: System, t: nat, o: Order, tx: string, row: nat, txHash: string) returns (s': System)
    requires Reaches(cfg, s, now) && OneOrder(now, o) && t in now.tasks && now.tasks[t] == LegacyPending(o, tx, row)
    ensures Reaches(cfg, s, s') && OneOrder(s', o) && s'.tasks == now.tasks[t := LegacySettled(o, tx, row, txHash)]
    ensures s'.core.settles == now.core.settles + [SettleCall(Legacy, t, o.info.id, tx, row, None, Some(txHash))]
  {
    hide Reaches;
    s' := GoStep(cfg, s, now, t, Fine(o.info, txHash));
  }

  lemma CommitProof(cfg: Config, s: System, now: System, t: nat, o: Order, tx: string, row: nat, txHash: string) returns (s': System)
    requires Reaches(cfg, s, now) && OneOrder(now, o) && t in now.tasks && now.tasks[t] == LegacySettled(o, tx, row, txHash)
    requires o.status == Pending && |txHash| <= TX_HASH_WIDTH
    ensures Reaches(cfg, s, s') && OneOrder(s', o.(status := Broadcasting, txHash := Some(txHash))) && s'.tasks == now.tasks[t := Done]
  {
    hide Reaches;
    s' := GoStep(cfg, s, now, t, Fine(o.info, txHash));
    var paid := o.(status := Broadcasting, txHash := Some(txHash));
    assert !HashTaken(now.core.orders, o.info.id, txHash);
    assert now.core.orders[o.info.id := paid] == map[o.info.id := paid];
  }

  function PaidOrder(info: OrderInfo, txHash: string): Order {
    FreshOrder(info).(status := Broadcasting, txHash := Some(txHash))
  }

  lemma PayByProof(cfg: Config, s: System, info: OrderInfo, tx: string, txHash: string) returns (s': System)
    requires Initial(s) && Payable(cfg, info, tx, txHash)
    ensures Reaches(cfg, s, s') && OneOrder(s', PaidOrder(info, txHash)) && s'.tasks == map[0 := Done]
  {
    hide Reaches, OneOrder, ProofFor, Step;
    var o := FreshOrder(info);
    var s1 := Create(cfg, s, info);
    var s2 := StartProof(cfg, s, s1, 0, o, tx);
    SameOrder(s1, s2, o);
    var s3 := TakeByProof(cfg, s, s2, 0, o, tx, Fine(info, txHash));
    var s4 := SettleProof(cfg, s, s3, 0, o.(status := Pending), tx, |s2.core.proofs|, txHash);
    s' := CommitProof(cfg, s, s4, 0, o.(status := Pending), tx, |s2.core.proofs|, txHash);
  }

  lemma SameOrder(s: System, s': System, o: Order)
    requires OneOrder(s, o) && s'.core == s.core
    ensures OneOrder(s', o)
  {
  }

  // ---------- the confirmer ----------

  /** A confirmer takes the order out of `broadcasting` and is about to have a top-up credited. */
  lemma ConfirmTopup(cfg: Config, s: System, now: System, t: nat, info: OrderInfo, txHash: string) returns (s': System)
    requires Reaches(cfg, s, now) && OneOrder(now, PaidOrder(info, txHash)) && t !in now.tasks && IsTopup(info)
    ensures var o := PaidOrder(info, txHash).(status := Confirmed, confirmedAt := Some(info.expiresAt));
            && Reaches(cfg, s, s') && OneOrder(s', o) && t in s'.tasks && s'.tasks[t] == Crediting(o)
            && info.id in s'.core.closers && s'.core.closers[info.id].task == t
  {
    var o, e := PaidOrder(info, txHash), Fine(info, txHash);
    var s1 := Go(cfg, s, now, StartConfirm(t, info.id));
    hide Reaches, IsTopup;
    assert s1 == now.(tasks := now.tasks[t := Selected(info.id, txHash)]);
    var s2 := GoStep(cfg, s, s1, t, e);
    assert s2 == now.(tasks := now.tasks[t := Confirming(info.id, txHash, e.chain)]);
    s' := ConfirmNow(cfg, s, s2, t, o, txHash, e);
  }

  lemma ConfirmNow(cfg: Config, s: System, now: System, t: nat, o: Order, txHash: string, e: Env) returns (s': System)
    requires Reaches(cfg, s, now) && OneOrder(now, o) && o.status == Broadcasting && IsTopup(o.info)
    requires t in now.tasks && now.tasks[t] == Confirming(o.info.id, txHash, e.chain)
    ensures var confirmed := o.(status := Confirmed, confirmedAt := Some(e.now));
            && Reaches(cfg, s, s') && OneOrder(s', confirmed) && t in s'.tasks && s'.tasks[t] == Crediting(confirmed)
            && o.info.id in s'.core.closers && s'.core.closers[o.info.id].task == t
  {
    hide Reaches, IsTopup;
    s' := GoStep(cfg, s, now, t, e);
    var confirmed := o.(status := Confirmed, confirmedAt := Some(e.now));
    assert now.core.orders[o.info.id := confirmed] == map[o.info.id := confirmed];
  }

  /** The order awaits its credit and is not posted. */
  ghost predicate Waiting(s: System, id: string) {
    E.AwaitsCredit(s.core, id) && Unposted(s.core, id)
  }

  /** Every top-up order can be abandoned for good: its proof is accepted, its payment settled and final on chain, and the
      confirmer dies after confirming it. */
  lemma EveryTopupCanBeAbandoned(cfg: Config, s: System, info: OrderInfo, tx: string, txHash: string) returns (s': System)
    requires Initial(s) && Payable(cfg, info, tx, txHash) && IsTopup(info)
    ensures Reaches(cfg, s, s') && Waiting(s', info.id) && !E.Attended(s', info.id) && !E.Requested(s', info.id)
    ensures info.id in s'.core.closers
  {
    hide Payable, Step, Execute;
    var s1 := PayByProof(cfg, s, info, tx, txHash);
    var s2 := ConfirmTopup(cfg, s, s1, 1, info, txHash);
    s' := Go(cfg, s, s2, Die(1));
  }

  /** Every top-up order can be posted and yet never marked: the confirmer's read times out, or it dies, after its request
      has reached the token service; the request goes on. */
  lemma EveryTopupCanBePostedUnmarked(cfg: Config, s: System, info: OrderInfo, tx: string, txHash: string)
    returns (lost: seq<Action>, more: seq<Action>)
    requires Initial(s) && Payable(cfg, info, tx, txHash) && IsTopup(info)
    ensures Waiting(Execute(cfg, s, lost), info.id)
    ensures T.Posted(Execute(cfg, s, lost + more).core, info.id)
    ensures !E.CanBeCredited(cfg, s, lost, info.id)
  {
    hide Payable, Step, E.CanBeCredited, T.Posted;
    var s1 := PayByProof(cfg, s, info, tx, txHash);
    var s2 := ConfirmTopup(cfg, s, s1, 1, info, txHash);
    var s3 := Go(cfg, s, s2, LoseReply(1));
    assert Waiting(s3, info.id) && E.Requested(s3, info.id) && !E.Attended(s3, info.id);
    lost :| Execute(cfg, s, lost) == s3;
    hide Execute, Initial, Waiting, E.Requested, E.Attended, Reaches;
    WaitingParts(s3, info.id);
    E.PostedInTheEndIff(cfg, s, lost, info.id);
    E.CreditedInTheEndIff(cfg, s, lost, info.id);
    more :| T.Posted(Execute(cfg, s, lost + more).core, info.id);
  }

  lemma WaitingParts(s: System, id: string)
    requires Waiting(s, id)
    ensures E.AwaitsCredit(s.core, id) && Unposted(s.core, id)
  {
  }

  // ---------- the protected route ----------

  /** A request of the protected route with the key of an earlier order. */
  function ProtectedRequestFor(t: nat, info: OrderInfo, tx: string): Action {
    StartCheckout(t, info.(merchant := PROTECTED_MERCHANT, kind := Some(MERCHANT_CHECKOUT)), FreshOrder(info), Some(tx))
  }

  lemma StartPayment(cfg: Config, s: System, now: System, t: nat, info: OrderInfo, tx: string) returns (s': System)
    requires Reaches(cfg, s, now) && OneOrder(now, FreshOrder(info)) && t !in now.tasks
    requires info.recipient == cfg.recipient && info.amount > 0 && info.apiKey == PROTECTED_API_KEY
    ensures s' == now.(tasks := now.tasks[t := CheckoutFetched(FreshOrder(info), Some(tx))]) && Reaches(cfg, s, s')
  {
    hide Step;
    assert SameKey(now.core.orders[info.id].info, ProtectedRequestFor(t, info, tx).asked);
    s' := Go(cfg, s, now, ProtectedRequestFor(t, info, tx));
  }

  /** Steps 1b-1h of a payment that has not been seen before. */
  lemma PersistPayment(cfg: Config, s: System, now: System, t: nat, info: OrderInfo, tx: string, e: Env) returns (s': System)
    requires Reaches(cfg, s, now) && OneOrder(now, FreshOrder(info)) && now.core.proofs == []
    requires t in now.tasks && now.tasks[t] == CheckoutFetched(FreshOrder(info), Some(tx))
    requires ProofFor(cfg, tx, info).Ok? && e.now == info.expiresAt && e.yes
    ensures Reaches(cfg, s, s') && OneOrder(s', FreshOrder(info)) && s'.tasks == now.tasks[t := CheckoutPersisted(FreshOrder(info), tx, 0, e.now)]
    ensures s'.core.settles == now.core.settles && s'.core.closers == now.core.closers
  {
    hide ProofFor, Reaches;
    var s1 := GoStep(cfg, s, now, t, e);
    assert s1.tasks[t] == CheckoutFresh(FreshOrder(info), tx, e.now);
    s' := GoStep(cfg, s, s1, t, e);
  }

  /** Step 1i. */
  lemma SettlePayment(cfg: Config, s: System, now: System, t: nat, info: OrderInfo, tx: string, txHash: string) returns (s': System)
    requires Reaches(cfg, s, now) && OneOrder(now, FreshOrder(info))
    requires t in now.tasks && now.tasks[t] == CheckoutPersisted(FreshOrder(info), tx, 0, info.expiresAt)
    ensures Reaches(cfg, s, s') && OneOrder(s', FreshOrder(info)) && s'.tasks == now.tasks[t := CheckoutSettled(FreshOrder(info), tx, 0, txHash)]
    ensures s'.core.settles == now.core.settles + [SettleCall(Checkout, t, info.id, tx, 0, Some(info.expiresAt), Some(txHash))]
    ensures s'.core.closers == now.core.closers
  {
    hide Reaches;
    var e := Fine(info, txHash);
    var s1 := GoStep(cfg, s, now, t, e);
    s' := GoStep(cfg, s, s1, t, e);
  }

  lemma CommitPayment(cfg: Config, s: System, now: System, t: nat, info: OrderInfo, tx: string, txHash: string) returns (s': System)
    requires Reaches(cfg, s, now) && OneOrder(now, FreshOrder(info)) && |txHash| <= TX_HASH_WIDTH
    requires t in now.tasks && now.tasks[t] == CheckoutSettled(FreshOrder(info), tx, 0, txHash)
    ensures var o := PaidOrder(info, txHash).(status := Confirmed, confirmedAt := Some(info.expiresAt));
            Reaches(cfg, s, s') && OneOrder(s', o) && s'.core.closers == now.core.closers
  {
    hide Reaches, CommitCheckout;
    CommitCheckoutOutcome(now.core.orders, info.id, txHash, info.expiresAt);
    assert !HashTaken(now.core.orders, info.id, txHash);
    s' := GoStep(cfg, s, now, t, Fine(info, txHash));
    var o := PaidOrder(info, txHash).(status := Confirmed, confirmedAt := Some(info.expiresAt));
    assert now.core.orders[info.id := o] == map[info.id := o];
  }

  lemma PayAtCheckout(cfg: Config, s: System, info: OrderInfo, tx: string, txHash: string) returns (s': System)
    requires Initial(s) && Payable(cfg, info, tx, txHash) && info.apiKey == PROTECTED_API_KEY
    ensures Reaches(cfg, s, s') && OneOrder(s', FreshOrder(info)) && s'.tasks == map[0 := CheckoutSettled(FreshOrder(info), tx, 0, txHash)]
    ensures s'.core.closers == map[]
    ensures s'.core.settles == [SettleCall(Checkout, 0, info.id, tx, 0, Some(info.expiresAt), Some(txHash))]
  {
    hide Reaches, OneOrder, ProofFor, Step;
    var s1 := Create(cfg, s, info);
    var s2 := StartPayment(cfg, s, s1, 0, info, tx);
    SameOrder(s1, s2, FreshOrder(info));
    var s3 := PersistPayment(cfg, s, s2, 0, info, tx, Fine(info, txHash));
    s' := SettlePayment(cfg, s, s3, 0, info, tx, txHash);
  }

  /** Every top-up created under the protected route's key can be abandoned without ever having a confirmer: a request of
      that route with its idempotency key is answered with the top-up's row, and pays it. */
  lemma EveryTopupUnderTheProtectedKeyCanBeAbandoned(cfg: Config, s: System, info: OrderInfo, tx: string, txHash: string)
    returns (s': System)
    requires Initial(s) && Payable(cfg, info, tx, txHash) && IsTopup(info) && info.apiKey == PROTECTED_API_KEY
    ensures Reaches(cfg, s, s') && Waiting(s', info.id) && info.id !in s'.core.closers
  {
    hide Reaches, ProofFor, Step;
    var s1 := PayAtCheckout(cfg, s, info, tx, txHash);
    s' := CommitPayment(cfg, s, s1, 0, info, tx, txHash);
  }

  /** One signed string can be settled twice, once on each route, for every order the protected route may be asked for: the
      /proof route keeps no hash of it. */
  lemma EveryStringCanSettleOnBothRoutes(cfg: Config, s: System, info: OrderInfo, tx: string, txHash: string) returns (s': System)
    requires Initial(s) && Payable(cfg, info, tx, txHash) && info.apiKey == PROTECTED_API_KEY
    ensures Reaches(cfg, s, s') && |s'.core.settles| == 2
    ensures s'.core.settles[0].route == Checkout && s'.core.settles[1].route == Legacy
    ensures s'.core.settles[0].tx == s'.core.settles[1].tx == tx && s'.core.settles[0].orderId == s'.core.settles[1].orderId == info.id
  {
    hide Reaches, OneOrder, ProofFor, Step;
    var o := FreshOrder(info);
    var s1 := PayAtCheckout(cfg, s, info, tx, txHash);
    var s2 := StartProof(cfg, s, s1, 1, o, tx);
    SameOrder(s1, s2, o);
    var s3 := TakeByProof(cfg, s, s2, 1, o, tx, Fine(info, txHash));
    s' := SettleProof(cfg, s, s3, 1, o.(status := Pending), tx, |s2.core.proofs|, txHash);
  }

  // ---------- pending for ever ----------

  /** Every order can be stranded in `pending`: the /proof request that took it dies. */
  lemma EveryOrderCanBeStranded(cfg: Config, s: System, info: OrderInfo, tx: string, txHash: string) returns (s': System)
    requires Initial(s) && Payable(cfg, info, tx, txHash)
    ensures Reaches(cfg, s, s') && O.Stranded(s', info.id)
  {
    hide ProofFor, Step, Execute;
    var o := FreshOrder(info);
    var s1 := Create(cfg, s, info);
    var s2 := StartProof(cfg, s, s1, 0, o, tx);
    var s3 := TakeByProof(cfg, s, s2, 0, o, tx, Fine(info, txHash));
    s' := Go(cfg, s, s3, Die(0));
  }

  /** And so it can by an answer the database will not take: a refusal whose reason is longer than its column. */
  lemma LongReasonStrands(cfg: Config, s: System, info: OrderInfo, tx: string, reason: string) returns (s': System)
    requires Initial(s) && Payable(cfg, info, tx, "") && |reason| >= REASON_WIDTH
    ensures Reaches(cfg, s, s') && O.Stranded(s', info.id)
  {
    hide ProofFor, Execute;
    var o := FreshOrder(info);
    var s1 := Create(cfg, s, info);
    var s2 := StartProof(cfg, s, s1, 0, o, tx);
    var s3 := TakeByProof(cfg, s, s2, 0, o, tx, Fine(info, ""));
    hide Reaches;
    s' := GoStep(cfg, s, s3, 0, Env(0, true, true, None, ChainAnswer("", None), reason));
  }
}
