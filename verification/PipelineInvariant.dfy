/** What every step of the pipeline keeps.  Each task has a claim (`TaskOk`); a step of one task is
    shown to respect a guarantee under which the claims of all others survive. */
module PipelineInvariant {
  import opened Wrappers
  import opened Orders
  import opened Gateway
  import opened Pipeline
  import L = Ledger
  import P = ProofVerifier

  // ---------- shared-state invariant ----------

  predicate IsPaymentFor(e: L.Entry, id: string) {
    e.source == L.X402Payment && e.sourceRef == Some(id)
  }

  /** The entry credits the order's merchant with the order's amount. */
  predicate Credits(e: L.Entry, info: OrderInfo) {
    IsPaymentFor(e, info.id) && e.kind == L.Credit && e.merchant == info.merchant && e.amount == info.amount
  }

  ghost predicate HasCredit(entries: seq<L.Entry>, entryId: nat, info: OrderInfo) {
    exists k :: 0 <= k < |entries| && entries[k].id == entryId && Credits(entries[k], info)
  }

  predicate Untaken(s: Status) { s == Created || s == Expired }
  predicate OnChain(s: Status) { s == Broadcasting || s == Confirmed || s == TokenCredited }

  /** Row `row` is a verified proof for order `id`, inserted by task t. */
  predicate OwnsRow(c: Core, t: nat, row: nat, id: string) {
    row < |c.proofs| && c.proofs[row].submitter == t && c.proofs[row].orderId == id && c.proofs[row].verified
  }

  /** Task t called settle for the order and was answered with this hash. */
  ghost predicate Answered(c: Core, t: nat, id: string, txHash: string) {
    exists k :: 0 <= k < |c.settles| && c.settles[k].task == t && c.settles[k].orderId == id && c.settles[k].answer == Some(txHash)
  }

  predicate SaysConfirmed(answer: ChainAnswer) {
    (answer.status == "confirmed" || answer.status == "finalized") && answer.err == None
  }

  predicate SaysFailed(answer: ChainAnswer) {
    answer.status != "pending" && (answer.status == "failed" || answer.err.Some?)
  }

  /** A closed order stands as WEA's answer about its stored hash says. */
  predicate ClosedAs(o: Order, closer: Closer) {
    && o.txHash == Some(closer.txHash)
    && (((o.status == Confirmed || o.status == TokenCredited) && SaysConfirmed(closer.answer))
        || (o.status == Failed && SaysFailed(closer.answer)))
  }

  ghost predicate OrderOk(cfg: Config, c: Core, id: string)
    requires id in c.orders
  {
    var o := c.orders[id];
    && o.info.recipient == cfg.recipient
    && (Untaken(o.status) || o.status == Pending || OnChain(o.status) || o.status == Failed)
    && (Untaken(o.status) <==> id !in c.takers)
    && (id in c.takers ==> OwnsRow(c, c.takers[id].task, c.takers[id].row, id))
    && (OnChain(o.status) ==> o.txHash.Some?)
    && (Untaken(o.status) || o.status == Pending ==> o.txHash.None?)
    && (o.txHash.Some? ==> id in c.takers && Answered(c, c.takers[id].task, id, o.txHash.value))
    && (o.status == Failed && o.txHash.Some? ==> id in c.closers)
    && (id in c.closers ==> ClosedAs(o, c.closers[id]))
    && (o.status == TokenCredited ==>
          id in c.closers && IsTopup(o.info) && o.ledgerEntryId.Some? && HasCredit(c.ledger.entries, o.ledgerEntryId.value, o.info))
  }

  ghost predicate OrdersOk(cfg: Config, c: Core) {
    && TableOk(c.orders) && c.takers.Keys <= c.orders.Keys && c.closers.Keys <= c.orders.Keys
    && forall id | id in c.orders :: OrderOk(cfg, c, id)
  }

  predicate ProofOk(cfg: Config, c: Core, k: nat)
    requires k < |c.proofs|
  {
    var row := c.proofs[k];
    && (row.verified ==> row.orderId in c.orders && ProofFor(cfg, row.tx, c.orders[row.orderId].info).Ok?)
    && (row.hash.Some? ==> row.hash == Some(row.tx))
  }

  ghost predicate ProofsOk(cfg: Config, c: Core) {
    && (forall k | 0 <= k < |c.proofs| :: ProofOk(cfg, c, k))
    && (forall j, k | 0 <= j < k < |c.proofs| && c.proofs[j].hash.Some? :: c.proofs[j].hash != c.proofs[k].hash)
  }

  predicate EntryOk(c: Core, k: nat)
    requires k < |c.ledger.entries|
  {
    var e := c.ledger.entries[k];
    if e.source != L.X402Payment then e.kind == L.Debit
    else
      && e.sourceRef.Some? && e.sourceRef.value in c.orders && e.sourceRef.value in c.closers
      && (var o := c.orders[e.sourceRef.value];
          Credits(e, o.info) && IsTopup(o.info) && (o.status == Confirmed || o.status == TokenCredited))
  }

  ghost predicate EntriesOk(c: Core) {
    && L.Consistent(c.ledger)
    && (forall k | 0 <= k < |c.ledger.entries| :: EntryOk(c, k))
    && (forall j, k | 0 <= j < k < |c.ledger.entries| && c.ledger.entries[j].source == L.X402Payment
                      && c.ledger.entries[k].source == L.X402Payment ::
          c.ledger.entries[j].sourceRef != c.ledger.entries[k].sourceRef)
  }

  /** The event an order in this state may announce. */
  predicate Announces(o: Order, kind: EventKind) {
    match kind
    case PaymentFailed => o.status == Failed
    case PaymentConfirmed => o.status == Confirmed && !IsTopup(o.info)
    case PaymentTokenCredited => o.status == TokenCredited
  }

  predicate EventOk(c: Core, k: nat)
    requires k < |c.events|
  {
    var e := c.events[k];
    e.orderId in c.orders && e.orderId in c.closers && Announces(c.orders[e.orderId], e.kind)
  }

  ghost predicate EventsOk(c: Core) {
    && (forall k | 0 <= k < |c.events| :: EventOk(c, k))
    && (forall j, k | 0 <= j < k < |c.events| :: c.events[j].orderId != c.events[k].orderId)
  }

  predicate ResponseOk(c: Core, k: nat)
    requires k < |c.responses|
  {
    var r := c.responses[k];
    && r.orderId in c.orders && c.orders[r.orderId].txHash == Some(r.txHash)
    && r.orderId in c.takers && c.takers[r.orderId].task == r.task
  }

  ghost predicate ResponsesOk(c: Core) {
    && (forall k | 0 <= k < |c.responses| :: ResponseOk(c, k))
    && (forall j, k | 0 <= j < k < |c.responses| :: c.responses[j].orderId != c.responses[k].orderId)
  }

  predicate SettleOk(c: Core, k: nat)
    requires k < |c.settles|
  {
    var call := c.settles[k];
    && OwnsRow(c, call.task, call.row, call.orderId) && c.proofs[call.row].tx == call.tx
    && (call.route == Checkout ==>
          && c.proofs[call.row].hash == Some(call.tx) && call.admittedAt.Some?
          && call.orderId in c.orders && call.admittedAt.value <= c.orders[call.orderId].info.expiresAt)
    && (call.route == Legacy ==> call.orderId in c.takers && c.takers[call.orderId] == Taker(call.task, call.row))
  }

  ghost predicate SettlesOk(c: Core) {
    && (forall k | 0 <= k < |c.settles| :: SettleOk(c, k))
    && (forall j, k | 0 <= j < k < |c.settles| :: c.settles[j].row != c.settles[k].row)
  }

  ghost predicate CoreOk(cfg: Config, c: Core) {
    OrdersOk(cfg, c) && ProofsOk(cfg, c) && EntriesOk(c) && EventsOk(c) && ResponsesOk(c) && SettlesOk(c)
  }

  // ---------- what a task may rely on ----------

  predicate CopyOk(c: Core, o: Order) {
    o.info.id in c.orders && c.orders[o.info.id].info == o.info
  }

  predicate Unsettled(c: Core, row: nat) {
    forall k | 0 <= k < |c.settles| :: c.settles[k].row != row
  }

  predicate SubmittedChecked(c: Core, t: nat, row: nat, id: string, tx: string) {
    OwnsRow(c, t, row, id) && c.proofs[row].tx == tx && c.proofs[row].hash == Some(tx)
  }

  /** t took the order with this row, and it is still pending. */
  predicate HoldsPending(c: Core, t: nat, row: nat, id: string) {
    id in c.orders && c.orders[id].status == Pending && id in c.takers && c.takers[id] == Taker(t, row)
  }

  predicate Unannounced(c: Core, id: string) {
    forall k | 0 <= k < |c.events| :: c.events[k].orderId != id
  }

  predicate Unposted(c: Core, id: string) {
    forall k | 0 <= k < |c.ledger.entries| :: !IsPaymentFor(c.ledger.entries[k], id)
  }

  /** t took the order out of `broadcasting`, nothing has been announced, and it stands where t left it. */
  predicate HoldsClosed(c: Core, t: nat, o: Order, status: Status) {
    && CopyOk(c, o) && c.orders[o.info.id].status == status
    && o.info.id in c.closers && c.closers[o.info.id].task == t && Unannounced(c, o.info.id)
  }

  predicate StillHash(c: Core, id: string, txHash: string) {
    id in c.orders && c.orders[id].txHash == Some(txHash)
  }

  ghost predicate TaskOk(c: Core, t: nat, pc: Pc) {
    match pc
    case Done => true
    case CheckoutFetched(o, _) => CopyOk(c, o)
    case CheckoutExpiring(o) => CopyOk(c, o)
    case CheckoutFresh(o, _, at) => CopyOk(c, o) && at <= o.info.expiresAt
    case CheckoutPersisted(o, tx, row, at) =>
      CopyOk(c, o) && at <= o.info.expiresAt && SubmittedChecked(c, t, row, o.info.id, tx) && Unsettled(c, row)
    case CheckoutVerified(o, tx, row, at) =>
      CopyOk(c, o) && at <= o.info.expiresAt && SubmittedChecked(c, t, row, o.info.id, tx) && Unsettled(c, row)
    case CheckoutSettled(o, tx, row, txHash) =>
      CopyOk(c, o) && SubmittedChecked(c, t, row, o.info.id, tx) && Answered(c, t, o.info.id, txHash)
    case LegacyFetched(o, _) => CopyOk(c, o)
    case LegacyPending(o, tx, row) =>
      HoldsPending(c, t, row, o.info.id) && OwnsRow(c, t, row, o.info.id) && c.proofs[row].tx == tx && Unsettled(c, row)
    case LegacyFailing(o, row, _) => HoldsPending(c, t, row, o.info.id)
    case LegacySettled(o, _, row, txHash) => HoldsPending(c, t, row, o.info.id) && Answered(c, t, o.info.id, txHash)
    case Selected(id, txHash) => StillHash(c, id, txHash)
    case Failing(id, txHash, answer) => StillHash(c, id, txHash) && SaysFailed(answer)
    case Confirming(id, txHash, answer) => StillHash(c, id, txHash) && SaysConfirmed(answer)
    case Crediting(o) => HoldsClosed(c, t, o, Confirmed) && IsTopup(o.info) && Unposted(c, o.info.id)
    case LookedUp(o, found) => HoldsClosed(c, t, o, Confirmed) && IsTopup(o.info) && Unposted(c, o.info.id) && found == None
    case Credited(o, entryId) =>
      HoldsClosed(c, t, o, Confirmed) && IsTopup(o.info) && HasCredit(c.ledger.entries, entryId, o.info)
    case Notifying(o, kind) => HoldsClosed(c, t, o, o.status) && Announces(o, kind)
    case Orphaned(o) => HoldsClosed(c, t, o, Confirmed) && IsTopup(o.info) && Unposted(c, o.info.id)
    case OrphanedLookedUp(o, found) => HoldsClosed(c, t, o, Confirmed) && IsTopup(o.info) && Unposted(c, o.info.id) && found == None
  }

  ghost predicate Inv(cfg: Config, s: System) {
    CoreOk(cfg, s.core) && forall t | t in s.tasks :: TaskOk(s.core, t, s.tasks[t])
  }

  // ---------- rely / guarantee ----------

  predicate MayMove(c: Core, t: nat, id: string)
    requires id in c.orders
  {
    var status := c.orders[id].status;
    || status == Created || status == Broadcasting
    || (status == Pending && id in c.takers && c.takers[id].task == t)
    || (status == Confirmed && id in c.closers && c.closers[id].task == t)
  }

  /** What a step of task t does to the shared state, as far as other tasks can tell. */
  ghost predicate Guarantee(c: Core, c': Core, t: nat) {
    && c.proofs <= c'.proofs && c.ledger.entries <= c'.ledger.entries && c.events <= c'.events && c.settles <= c'.settles
    && (forall k | |c.ledger.entries| <= k < |c'.ledger.entries| ::
          var e := c'.ledger.entries[k];
          e.source == L.X402Payment ==> e.sourceRef.Some? && e.sourceRef.value in c.closers && c.closers[e.sourceRef.value].task == t)
    && (forall k | |c.events| <= k < |c'.events| ::
          c'.events[k].orderId in c.closers && c.closers[c'.events[k].orderId].task == t)
    && (forall k | |c.settles| <= k < |c'.settles| ::
          c'.settles[k].row < |c.proofs| && c.proofs[c'.settles[k].row].submitter == t)
    && (forall id | id in c.takers :: id in c'.takers && c'.takers[id] == c.takers[id])
    && (forall id | id in c.closers :: id in c'.closers && c'.closers[id] == c.closers[id])
    && (forall id | id in c.orders :: id in c'.orders && OrderStable(c, c', t, id))
  }

  predicate OrderStable(c: Core, c': Core, t: nat, id: string)
    requires id in c.orders && id in c'.orders
  {
    && c'.orders[id].info == c.orders[id].info
    && (c.orders[id].txHash.Some? ==> c'.orders[id].txHash == c.orders[id].txHash)
    && (c'.orders[id].status == c.orders[id].status || MayMove(c, t, id))
  }

  lemma CopyStable(c: Core, c': Core, t: nat, o: Order)
    requires Guarantee(c, c', t) && CopyOk(c, o)
    ensures CopyOk(c', o)
  {
    assert OrderStable(c, c', t, o.info.id);
  }

  lemma UnsettledStable(c: Core, c': Core, t: nat, other: nat, row: nat)
    requires Guarantee(c, c', t) && other != t && row < |c.proofs| && c.proofs[row].submitter == other && Unsettled(c, row)
    ensures Unsettled(c', row)
  {
  }

  lemma HoldsPendingStable(c: Core, c': Core, t: nat, other: nat, row: nat, id: string)
    requires Guarantee(c, c', t) && other != t && HoldsPending(c, other, row, id)
    ensures HoldsPending(c', other, row, id)
  {
    assert OrderStable(c, c', t, id);
  }

  lemma HoldsClosedStable(c: Core, c': Core, t: nat, other: nat, o: Order, status: Status)
    requires Guarantee(c, c', t) && other != t && HoldsClosed(c, other, o, status)
    requires status == Confirmed || status == TokenCredited || status == Failed
    ensures HoldsClosed(c', other, o, status)
  {
    assert OrderStable(c, c', t, o.info.id);
  }

  lemma UnpostedStable(c: Core, c': Core, t: nat, other: nat, id: string)
    requires Guarantee(c, c', t) && other != t && id in c.closers && c.closers[id].task == other && Unposted(c, id)
    ensures Unposted(c', id)
  {
  }

  lemma HasCreditStable(c: Core, c': Core, t: nat, entryId: nat, info: OrderInfo)
    requires Guarantee(c, c', t) && HasCredit(c.ledger.entries, entryId, info)
    ensures HasCredit(c'.ledger.entries, entryId, info)
  {
    var k :| 0 <= k < |c.ledger.entries| && c.ledger.entries[k].id == entryId && Credits(c.ledger.entries[k], info);
    assert c'.ledger.entries[k] == c.ledger.entries[k];
  }

  lemma AnsweredStable(c: Core, c': Core, t: nat, id: string, txHash: string)
    requires c.settles <= c'.settles && Answered(c, t, id, txHash)
    ensures Answered(c', t, id, txHash)
  {
    var k :| 0 <= k < |c.settles| && c.settles[k].task == t && c.settles[k].orderId == id && c.settles[k].answer == Some(txHash);
    assert c'.settles[k] == c.settles[k];
  }

  lemma CheckoutClaimStable(c: Core, c': Core, t: nat, other: nat, pc: Pc)
    requires Guarantee(c, c', t) && other != t && TaskOk(c, other, pc)
    requires pc.CheckoutFetched? || pc.CheckoutExpiring? || pc.CheckoutFresh? || pc.CheckoutPersisted? || pc.CheckoutVerified? || pc.CheckoutSettled?
    ensures TaskOk(c', other, pc)
  {
    CopyStable(c, c', t, pc.order);
    if pc.CheckoutPersisted? || pc.CheckoutVerified? { UnsettledStable(c, c', t, other, pc.row); }
    if pc.CheckoutSettled? { AnsweredStable(c, c', other, pc.order.info.id, pc.txHash); }
    hide CopyOk, Unsettled, Answered;
  }

  lemma LegacyClaimStable(c: Core, c': Core, t: nat, other: nat, pc: Pc)
    requires Guarantee(c, c', t) && other != t && TaskOk(c, other, pc)
    requires pc.LegacyFetched? || pc.LegacyPending? || pc.LegacyFailing? || pc.LegacySettled?
    ensures TaskOk(c', other, pc)
  {
    var id := pc.order.info.id;
    if pc.LegacyFetched? { CopyStable(c, c', t, pc.order); } else { HoldsPendingStable(c, c', t, other, pc.row, id); }
    if pc.LegacyPending? { UnsettledStable(c, c', t, other, pc.row); }
    if pc.LegacySettled? { AnsweredStable(c, c', other, id, pc.txHash); }
    hide CopyOk, Unsettled, Answered, HoldsPending;
  }

  lemma SelectionClaimStable(c: Core, c': Core, t: nat, other: nat, pc: Pc)
    requires Guarantee(c, c', t) && other != t && TaskOk(c, other, pc)
    requires pc.Selected? || pc.Failing? || pc.Confirming?
    ensures TaskOk(c', other, pc)
  {
    assert OrderStable(c, c', t, pc.orderId);
  }

  lemma NothingClaimed(c: Core, t: nat)
    ensures TaskOk(c, t, Done)
  {
  }

  lemma ConfirmerClaimStable(c: Core, c': Core, t: nat, other: nat, pc: Pc)
    requires Guarantee(c, c', t) && other != t && TaskOk(c, other, pc)
    requires pc.Crediting? || pc.LookedUp? || pc.Credited? || pc.Notifying? || pc.Orphaned? || pc.OrphanedLookedUp?
    ensures TaskOk(c', other, pc)
  {
    match pc
    case Crediting(o) => HoldsClosedStable(c, c', t, other, o, Confirmed); UnpostedStable(c, c', t, other, o.info.id);
    case LookedUp(o, _) => HoldsClosedStable(c, c', t, other, o, Confirmed); UnpostedStable(c, c', t, other, o.info.id);
    case Credited(o, entryId) =>
      HoldsClosedStable(c, c', t, other, o, Confirmed); HasCreditStable(c, c', t, entryId, o.info);
    case Notifying(o, _) => HoldsClosedStable(c, c', t, other, o, o.status);
    case Orphaned(o) => HoldsClosedStable(c, c', t, other, o, Confirmed); UnpostedStable(c, c', t, other, o.info.id);
    case OrphanedLookedUp(o, _) => HoldsClosedStable(c, c', t, other, o, Confirmed); UnpostedStable(c, c', t, other, o.info.id);
  }

  /** The claims of every other task survive a step that respects the guarantee. */
  lemma ClaimStable(c: Core, c': Core, t: nat, other: nat, pc: Pc)
    requires Guarantee(c, c', t) && other != t && TaskOk(c, other, pc)
    ensures TaskOk(c', other, pc)
  {
    hide Guarantee, TaskOk;
    if pc == Done {
      NothingClaimed(c', other);
    } else if pc.Selected? || pc.Failing? || pc.Confirming? {
      SelectionClaimStable(c, c', t, other, pc);
    } else if pc.LegacyFetched? || pc.LegacyPending? || pc.LegacyFailing? || pc.LegacySettled? {
      LegacyClaimStable(c, c', t, other, pc);
    } else if pc.Crediting? || pc.LookedUp? || pc.Credited? || pc.Notifying? || pc.Orphaned? || pc.OrphanedLookedUp? {
      ConfirmerClaimStable(c, c', t, other, pc);
    } else {
      CheckoutClaimStable(c, c', t, other, pc);
    }
  }
}
