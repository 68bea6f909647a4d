/** Every step of the pipeline keeps the invariant and respects the guarantee. */
module PipelineSteps {
  import opened Wrappers
  import opened Orders
  import opened Gateway
  import opened Pipeline
  import opened PipelineInvariant
  import L = Ledger
  import P = ProofVerifier

  // ---------- the six ways the shared state changes ----------

  // A step's result: the invariant, the guarantee and the task's next claim.
  ghost predicate Kept(cfg: Config, c: Core, t: nat, after: (Core, Pc)) {
    CoreOk(cfg, after.0) && Guarantee(c, after.0, t) && TaskOk(after.0, t, after.1)
  }

  ghost predicate Extends<V>(m: map<string, V>, m': map<string, V>, id: string) {
    m.Keys <= m'.Keys && forall k | k in m' :: if k in m then m'[k] == m[k] else k == id
  }

  /** One order row moves along its status, nothing else but the record of who took or closed it. */
  ghost predicate Moved(c: Core, c': Core, id: string) {
    && id in c.orders && id in c'.orders && c'.orders == c.orders[id := c'.orders[id]]
    && c' == c.(orders := c'.orders, takers := c'.takers, closers := c'.closers)
    && Extends(c.takers, c'.takers, id) && Extends(c.closers, c'.closers, id)
    && c'.orders[id].info == c.orders[id].info
    && (c.orders[id].txHash.Some? ==> c'.orders[id].txHash == c.orders[id].txHash)
    && c.orders[id].status != TokenCredited
    && (c.orders[id].status == Confirmed ==> c'.orders[id].status == TokenCredited)
  }

  lemma MovedOrders(cfg: Config, c: Core, c': Core, id: string)
    requires OrdersOk(cfg, c) && Moved(c, c', id) && TableOk(c'.orders) && OrderOk(cfg, c', id)
    ensures OrdersOk(cfg, c')
  {
    forall i | i in c'.orders ensures OrderOk(cfg, c', i) {
      if i != id { assert OrderOk(cfg, c, i); }
    }
  }

  lemma MovedProofs(cfg: Config, c: Core, c': Core, id: string)
    requires ProofsOk(cfg, c) && Moved(c, c', id)
    ensures ProofsOk(cfg, c')
  {
    forall k | 0 <= k < |c'.proofs| ensures ProofOk(cfg, c', k) { assert ProofOk(cfg, c, k); }
  }

  lemma MovedEntries(c: Core, c': Core, id: string)
    requires EntriesOk(c) && Moved(c, c', id)
    ensures EntriesOk(c')
  {
    forall k | 0 <= k < |c'.ledger.entries| ensures EntryOk(c', k) { assert EntryOk(c, k); }
  }

  lemma MovedObserved(c: Core, c': Core, id: string)
    requires EventsOk(c) && ResponsesOk(c) && Moved(c, c', id) && Unannounced(c, id)
    ensures EventsOk(c') && ResponsesOk(c')
  {
    forall k | 0 <= k < |c'.events| ensures EventOk(c', k) { assert EventOk(c, k); }
    forall k | 0 <= k < |c'.responses| ensures ResponseOk(c', k) { assert ResponseOk(c, k); }
  }

  lemma MovedSettles(c: Core, c': Core, id: string)
    requires SettlesOk(c) && Moved(c, c', id)
    ensures SettlesOk(c')
  {
    forall k | 0 <= k < |c'.settles| ensures SettleOk(c', k) { assert SettleOk(c, k); }
  }

  lemma MovedGuarantee(c: Core, c': Core, t: nat, id: string)
    requires Moved(c, c', id) && MayMove(c, t, id)
    ensures Guarantee(c, c', t)
  {
  }

  lemma MoveKeepsCore(cfg: Config, c: Core, c': Core, t: nat, id: string)
    requires CoreOk(cfg, c) && Moved(c, c', id) && MayMove(c, t, id) && Unannounced(c, id)
    requires TableOk(c'.orders) && OrderOk(cfg, c', id)
    ensures CoreOk(cfg, c') && Guarantee(c, c', t)
  {
    MovedOrders(cfg, c, c', id);
    MovedProofs(cfg, c, c', id);
    MovedEntries(c, c', id);
    MovedObserved(c, c', id);
    MovedSettles(c, c', id);
    MovedGuarantee(c, c', t, id);
  }

  lemma OrderOkFrame(cfg: Config, c: Core, c': Core, id: string)
    requires id in c.orders && OrderOk(cfg, c, id)
    requires c'.orders == c.orders && c'.takers == c.takers && c'.closers == c.closers
    requires c.proofs <= c'.proofs && c.ledger.entries <= c'.ledger.entries && c.settles <= c'.settles
    ensures OrderOk(cfg, c', id)
  {
    if c.orders[id].txHash.Some? { AnsweredStable(c, c', c.takers[id].task, id, c.orders[id].txHash.value); }
    if c.orders[id].status == TokenCredited {
      var entryId, info := c.orders[id].ledgerEntryId.value, c.orders[id].info;
      var k :| 0 <= k < |c.ledger.entries| && c.ledger.entries[k].id == entryId && Credits(c.ledger.entries[k], info);
      assert c'.ledger.entries[k] == c.ledger.entries[k];
    }
  }

  /** Tables only grew; no order, taker or closer changed. */
  ghost predicate Grown(c: Core, c': Core) {
    && c'.orders == c.orders && c'.takers == c.takers && c'.closers == c.closers
    && c.proofs <= c'.proofs && c.ledger.entries <= c'.ledger.entries && c.events <= c'.events
    && c.settles <= c'.settles && c.responses <= c'.responses
  }

  lemma GrownKeepsRows(cfg: Config, c: Core, c': Core)
    requires CoreOk(cfg, c) && Grown(c, c')
    ensures OrdersOk(cfg, c')
    ensures forall k | 0 <= k < |c.proofs| :: ProofOk(cfg, c', k)
    ensures forall k | 0 <= k < |c.ledger.entries| :: EntryOk(c', k)
  {
    forall i | i in c'.orders ensures OrderOk(cfg, c', i) { OrderOkFrame(cfg, c, c', i); }
    forall k | 0 <= k < |c.proofs| ensures ProofOk(cfg, c', k) { assert ProofOk(cfg, c, k); }
    forall k | 0 <= k < |c.ledger.entries| ensures EntryOk(c', k) { assert EntryOk(c, k); }
  }

  lemma GrownKeepsObserved(cfg: Config, c: Core, c': Core)
    requires CoreOk(cfg, c) && Grown(c, c')
    ensures forall k | 0 <= k < |c.events| :: EventOk(c', k)
    ensures forall k | 0 <= k < |c.responses| :: ResponseOk(c', k)
    ensures forall k | 0 <= k < |c.settles| :: SettleOk(c', k)
  {
    forall k | 0 <= k < |c.events| ensures EventOk(c', k) { assert EventOk(c, k); }
    forall k | 0 <= k < |c.responses| ensures ResponseOk(c', k) { assert ResponseOk(c, k); }
    forall k | 0 <= k < |c.settles| ensures SettleOk(c', k) { assert SettleOk(c, k); }
  }

  lemma AddProofKeepsCore(cfg: Config, c: Core, t: nat, row: ProofRow)
    requires CoreOk(cfg, c) && InsertProof(c.proofs, row).Ok?
    requires row.verified ==> row.orderId in c.orders && ProofFor(cfg, row.tx, c.orders[row.orderId].info).Ok?
    requires row.hash.Some? ==> row.hash == Some(row.tx)
    ensures CoreOk(cfg, c.(proofs := c.proofs + [row])) && Guarantee(c, c.(proofs := c.proofs + [row]), t)
    ensures Unsettled(c.(proofs := c.proofs + [row]), |c.proofs|)
  {
    hide ProofFor, TableOk, L.Consistent, OrderOk;
    var c' := c.(proofs := c.proofs + [row]);
    GrownKeepsRows(cfg, c, c');
    GrownKeepsObserved(cfg, c, c');
    forall k | 0 <= k < |c.settles| ensures c.settles[k].row != |c.proofs| { assert SettleOk(c, k); }
  }

  lemma AddSettleKeepsCore(cfg: Config, c: Core, call: SettleCall)
    requires CoreOk(cfg, c) && Unsettled(c, call.row)
    requires SettleOk(c.(settles := [call]), 0)
    ensures CoreOk(cfg, RecordSettle(c, call)) && Guarantee(c, RecordSettle(c, call), call.task)
  {
    hide TableOk, L.Consistent, OrderOk;
    GrownKeepsRows(cfg, c, RecordSettle(c, call));
    GrownKeepsObserved(cfg, c, RecordSettle(c, call));
  }

  predicate Unanswered(c: Core, id: string) {
    forall k | 0 <= k < |c.responses| :: c.responses[k].orderId != id
  }

  lemma GuaranteeIgnoresResponses(before: Core, c: Core, t: nat, responses: seq<Response>)
    requires Guarantee(before, c, t)
    ensures Guarantee(before, c.(responses := responses), t)
  {
    var c' := c.(responses := responses);
    forall id | id in before.orders ensures id in c'.orders && OrderStable(before, c', t, id) {
      assert OrderStable(before, c, t, id);
    }
  }

  lemma AddResponseKeepsCore(cfg: Config, before: Core, c: Core, r: Response)
    requires CoreOk(cfg, c) && Unanswered(c, r.orderId) && Guarantee(before, c, r.task)
    requires ResponseOk(c.(responses := [r]), 0)
    ensures CoreOk(cfg, c.(responses := c.responses + [r])) && Guarantee(before, c.(responses := c.responses + [r]), r.task)
  {
    hide Guarantee, TableOk, L.Consistent, OrderOk;
    GrownKeepsRows(cfg, c, c.(responses := c.responses + [r]));
    GrownKeepsObserved(cfg, c, c.(responses := c.responses + [r]));
    GuaranteeIgnoresResponses(before, c, r.task, c.responses + [r]);
  }

  lemma AddEventKeepsCore(cfg: Config, c: Core, t: nat, e: Event)
    requires CoreOk(cfg, c) && Unannounced(c, e.orderId)
    requires EventOk(c.(events := [e]), 0) && c.closers[e.orderId].task == t
    ensures CoreOk(cfg, c.(events := c.events + [e])) && Guarantee(c, c.(events := c.events + [e]), t)
  {
    hide TableOk, L.Consistent, OrderOk;
    GrownKeepsRows(cfg, c, c.(events := c.events + [e]));
    GrownKeepsObserved(cfg, c, c.(events := c.events + [e]));
  }

  /** The ledger moves by at most one entry, and a payment entry is new for its order. */
  lemma LedgerMoveKeepsCore(cfg: Config, c: Core, t: nat, ledger: L.State)
    requires CoreOk(cfg, c) && L.Consistent(ledger)
    requires c.ledger.entries <= ledger.entries && |ledger.entries| <= |c.ledger.entries| + 1
    requires forall k | |c.ledger.entries| <= k < |ledger.entries| ::
               && EntryOk(c.(ledger := ledger), k)
               && (ledger.entries[k].source == L.X402Payment ==>
                     Unposted(c, ledger.entries[k].sourceRef.value) && c.closers[ledger.entries[k].sourceRef.value].task == t)
    ensures CoreOk(cfg, c.(ledger := ledger)) && Guarantee(c, c.(ledger := ledger), t)
  {
    hide L.Consistent, OrderOk, TableOk;
    var c' := c.(ledger := ledger);
    GrownKeepsRows(cfg, c, c');
    GrownKeepsObserved(cfg, c, c');
    forall j, k | 0 <= j < k < |ledger.entries| && ledger.entries[j].source == L.X402Payment && ledger.entries[k].source == L.X402Payment
      ensures ledger.entries[j].sourceRef != ledger.entries[k].sourceRef
    {
      assert ledger.entries[j] == c.ledger.entries[j] && EntryOk(c, j);
      if k == |c.ledger.entries| {
        assert !IsPaymentFor(c.ledger.entries[j], ledger.entries[k].sourceRef.value);
      } else {
        assert ledger.entries[k] == c.ledger.entries[k];
      }
    }
  }

  // ---------- orders that nobody has closed, answered or announced ----------

  lemma OpenOrder(cfg: Config, c: Core, id: string)
    requires CoreOk(cfg, c) && id in c.orders
    requires c.orders[id].status == Created || c.orders[id].status == Pending || c.orders[id].status == Broadcasting
    ensures id !in c.closers && Unannounced(c, id) && Unposted(c, id)
    ensures c.orders[id].status != Broadcasting ==> c.orders[id].txHash == None && Unanswered(c, id)
  {
    assert OrderOk(cfg, c, id);
    forall k | 0 <= k < |c.events| ensures c.events[k].orderId != id { assert EventOk(c, k); }
    forall k | 0 <= k < |c.ledger.entries| ensures !IsPaymentFor(c.ledger.entries[k], id) { assert EntryOk(c, k); }
    if c.orders[id].status != Broadcasting {
      forall k | 0 <= k < |c.responses| ensures c.responses[k].orderId != id { assert ResponseOk(c, k); }
    }
  }

  lemma OrderFacts(cfg: Config, c: Core, id: string)
    requires CoreOk(cfg, c) && id in c.orders
    ensures TableOk(c.orders) && OrderOk(cfg, c, id) && c.orders[id].info.id == id
  {
  }

  /** A step that leaves the shared state alone only has to make the next claim true. */
  lemma StayKeeps(cfg: Config, c: Core, t: nat, pc: Pc)
    requires CoreOk(cfg, c) && TaskOk(c, t, pc)
    ensures Kept(cfg, c, t, (c, pc))
  {
    hide CoreOk;
  }

  // ---------- checkout route ----------

  /** The row after a successful transition, in a table that is still well formed. */
  lemma TransitionRowMoves(t: Table, id: string, from: Status, to: Status, u: Updates)
    requires TableOk(t) && Transition(t, id, Some(from), to, u).Ok?
    ensures id in t && t[id].status == from && to in Successors(from)
    ensures TableOk(t[id := Write(t[id], to, u)])
    ensures Transition(t, id, Some(from), to, u).value == t[id := Write(t[id], to, u)]
  {
    TransitionMovesOneRow(t, id, Some(from), to, u);
  }

  lemma CheckoutExpireKeeps(cfg: Config, c: Core, t: nat, o: Order)
    requires CoreOk(cfg, c) && TaskOk(c, t, CheckoutExpiring(o))
    ensures Kept(cfg, c, t, CheckoutExpire(c, o))
  {
    hide CoreOk, Guarantee, TableOk;
    var id := o.info.id;
    if Transition(c.orders, id, Some(Created), Expired, NO_UPDATES).Ok? {
      OrderFacts(cfg, c, id);
      TransitionRowMoves(c.orders, id, Created, Expired, NO_UPDATES);
      OpenOrder(cfg, c, id);
      MoveKeepsCore(cfg, c, CheckoutExpire(c, o).0, t, id);
    } else {
      StayKeeps(cfg, c, t, Done);
    }
  }

  lemma CheckoutPersistKeeps(cfg: Config, c: Core, t: nat, o: Order, tx: string, at: int)
    requires CoreOk(cfg, c) && TaskOk(c, t, CheckoutFresh(o, tx, at))
    ensures Kept(cfg, c, t, CheckoutPersist(cfg, c, t, o, tx, at))
  {
    hide CoreOk, Guarantee, ProofFor, HashSeen;
    var verdict := ProofFor(cfg, tx, o.info);
    var row := ProofRow(o.info.id, tx, Some(tx), verdict.Ok?, t);
    if verdict == Err(P.IndexOutOfRange) || InsertProof(c.proofs, row).Err? {
      StayKeeps(cfg, c, t, Done);
    } else {
      AddProofKeepsCore(cfg, c, t, row);
    }
  }

  lemma CheckoutSettleKeeps(cfg: Config, c: Core, t: nat, o: Order, tx: string, row: nat, at: int, env: Env)
    requires CoreOk(cfg, c) && TaskOk(c, t, CheckoutVerified(o, tx, row, at))
    ensures Kept(cfg, c, t, CheckoutSettle(c, t, o, tx, row, at, env))
  {
    hide CoreOk, Guarantee;
    var call := SettleCall(Checkout, t, o.info.id, tx, row, Some(at), env.settled);
    AddSettleKeepsCore(cfg, c, call);
    assert RecordSettle(c, call).settles[|c.settles|] == call;
  }

  lemma CommitCheckoutTable(t: Table, id: string, txHash: string, now: int)
    requires TableOk(t) && CommitCheckout(t, id, txHash, now).Ok?
    ensures TableOk(CommitCheckout(t, id, txHash, now).value)
  {
    hide TableOk;
    var hashed := NO_UPDATES.(txHash := Some(txHash));
    TransitionRowMoves(t, id, Created, Pending, NO_UPDATES);
    var t1 := Transition(t, id, Some(Created), Pending, NO_UPDATES).value;
    TransitionRowMoves(t1, id, Pending, Broadcasting, hashed);
    var t2 := Transition(t1, id, Some(Pending), Broadcasting, hashed).value;
    TransitionRowMoves(t2, id, Broadcasting, Confirmed, NO_UPDATES.(confirmedAt := Some(now)));
  }

  lemma CheckoutCommitKeeps(cfg: Config, c: Core, t: nat, o: Order, tx: string, row: nat, txHash: string, now: int)
    requires CoreOk(cfg, c) && TaskOk(c, t, CheckoutSettled(o, tx, row, txHash))
    ensures Kept(cfg, c, t, CheckoutCommit(c, t, o, row, txHash, now))
  {
    hide CoreOk, Guarantee, TableOk, CommitCheckout;
    var id := o.info.id;
    CommitCheckoutOutcome(c.orders, id, txHash, now);
    if CommitCheckout(c.orders, id, txHash, now).Ok? {
      OrderFacts(cfg, c, id);
      CommitCheckoutTable(c.orders, id, txHash, now);
      OpenOrder(cfg, c, id);
      var moved := c.(orders := CommitCheckout(c.orders, id, txHash, now).value, takers := c.takers[id := Taker(t, row)]);
      MoveKeepsCore(cfg, c, moved, t, id);
      AddResponseKeepsCore(cfg, c, moved, Response(t, id, txHash));
    } else {
      StayKeeps(cfg, c, t, Done);
    }
  }

  // ---------- legacy route ----------

  lemma LegacyAcceptKeeps(cfg: Config, c: Core, t: nat, o: Order, tx: string)
    requires CoreOk(cfg, c) && TaskOk(c, t, LegacyFetched(o, tx))
    ensures Kept(cfg, c, t, LegacyAccept(cfg, c, t, o, tx))
  {
    hide CoreOk, Guarantee, ProofFor, AcceptProof;
    var id, verdict := o.info.id, ProofFor(cfg, tx, o.info);
    var row := ProofRow(id, tx, None, true, t);
    AcceptProofOutcome(Store(c.orders, c.proofs), row);
    if o.status != Created || verdict == Err(P.IndexOutOfRange) {
      StayKeeps(cfg, c, t, Done);
    } else if verdict.Err? {
      AddProofKeepsCore(cfg, c, t, row.(verified := false));
    } else if AcceptProof(Store(c.orders, c.proofs), row).Ok? {
      LegacyTakeKeeps(cfg, c, t, o, tx);
    } else {
      StayKeeps(cfg, c, t, Done);
    }
  }

  function Taken(c: Core, t: nat, o: Order, tx: string): Core
    requires o.info.id in c.orders
  {
    var id := o.info.id;
    c.(orders := c.orders[id := c.orders[id].(status := Pending)],
       proofs := c.proofs + [ProofRow(id, tx, None, true, t)],
       takers := c.takers[id := Taker(t, |c.proofs|)])
  }

  lemma LegacyTakeKeeps(cfg: Config, c: Core, t: nat, o: Order, tx: string)
    requires CoreOk(cfg, c) && CopyOk(c, o) && c.orders[o.info.id].status == Created && ProofFor(cfg, tx, o.info).Ok?
    ensures Kept(cfg, c, t, (Taken(c, t, o, tx), LegacyPending(c.orders[o.info.id].(status := Pending), tx, |c.proofs|)))
  {
    hide CoreOk, Guarantee, TableOk, ProofFor;
    var id, row := o.info.id, |c.proofs|;
    OrderFacts(cfg, c, id);
    AddProofKeepsCore(cfg, c, t, ProofRow(id, tx, None, true, t));
    var c1 := c.(proofs := c.proofs + [ProofRow(id, tx, None, true, t)]);
    TransitionRowMoves(c.orders, id, Created, Pending, NO_UPDATES);
    OpenOrder(cfg, c1, id);
    OrderFacts(cfg, c1, id);
    MoveKeepsCore(cfg, c1, Taken(c, t, o, tx), t, id);
    GuaranteeAfterProof(c, c1, Taken(c, t, o, tx), t);
  }

  lemma GuaranteeAfterProof(c: Core, c1: Core, c2: Core, t: nat)
    requires c1 == c.(proofs := c1.proofs) && c.proofs <= c1.proofs && c2.settles == c1.settles && Guarantee(c1, c2, t)
    ensures Guarantee(c, c2, t)
  {
    forall id | id in c.orders ensures id in c2.orders && OrderStable(c, c2, t, id) {
      assert OrderStable(c1, c2, t, id);
    }
  }

  lemma LegacySettleKeeps(cfg: Config, c: Core, t: nat, o: Order, tx: string, row: nat, env: Env)
    requires CoreOk(cfg, c) && TaskOk(c, t, LegacyPending(o, tx, row))
    ensures Kept(cfg, c, t, LegacySettle(c, t, o, tx, row, env))
  {
    hide CoreOk, Guarantee;
    var call := SettleCall(Legacy, t, o.info.id, tx, row, None, env.settled);
    AddSettleKeepsCore(cfg, c, call);
    assert RecordSettle(c, call).settles[|c.settles|] == call;
  }

  lemma LegacyAbortKeeps(cfg: Config, c: Core, t: nat, o: Order, row: nat, reason: string)
    requires CoreOk(cfg, c) && TaskOk(c, t, LegacyFailing(o, row, reason))
    ensures Kept(cfg, c, t, LegacyAbort(c, o, reason))
  {
    hide CoreOk, Guarantee, TableOk, HasCredit;
    var id, u := o.info.id, NO_UPDATES.(reason := Some(reason));
    if Transition(c.orders, id, Some(Pending), Failed, u).Ok? {
      OrderFacts(cfg, c, id);
      TransitionRowMoves(c.orders, id, Pending, Failed, u);
      OpenOrder(cfg, c, id);
      MoveKeepsCore(cfg, c, LegacyAbort(c, o, reason).0, t, id);
    } else {
      StayKeeps(cfg, c, t, Done);
    }
  }

  lemma LegacyCommitKeeps(cfg: Config, c: Core, t: nat, o: Order, tx: string, row: nat, txHash: string)
    requires CoreOk(cfg, c) && TaskOk(c, t, LegacySettled(o, tx, row, txHash))
    ensures Kept(cfg, c, t, LegacyCommit(c, t, o, txHash))
  {
    hide CoreOk, Guarantee, TableOk;
    var id, u := o.info.id, NO_UPDATES.(txHash := Some(txHash));
    if Transition(c.orders, id, Some(Pending), Broadcasting, u).Ok? {
      OrderFacts(cfg, c, id);
      TransitionRowMoves(c.orders, id, Pending, Broadcasting, u);
      OpenOrder(cfg, c, id);
      var moved := c.(orders := c.orders[id := Write(c.orders[id], Broadcasting, u)]);
      MoveKeepsCore(cfg, c, moved, t, id);
      AddResponseKeepsCore(cfg, c, moved, Response(t, id, txHash));
    } else {
      StayKeeps(cfg, c, t, Done);
    }
  }

  // ---------- confirmer ----------

  /** A broadcasting row closed as WEA's answer says. */
  lemma CloseMoves(cfg: Config, c: Core, id: string, o: Order, closer: Closer)
    requires id in c.orders && OrderOk(cfg, c, id) && c.orders[id].status == Broadcasting && id !in c.closers
    requires o.info == c.orders[id].info && o.txHash == c.orders[id].txHash && ClosedAs(o, closer) && o.status != TokenCredited
    ensures var c' := c.(orders := c.orders[id := o], closers := c.closers[id := closer]);
            Moved(c, c', id) && OrderOk(cfg, c', id)
  {
    hide SaysFailed, SaysConfirmed, HasCredit;
  }

  lemma FailOnChainKeeps(cfg: Config, c: Core, t: nat, id: string, txHash: string, answer: ChainAnswer)
    requires CoreOk(cfg, c) && TaskOk(c, t, Failing(id, txHash, answer))
    ensures Kept(cfg, c, t, FailOnChain(c, t, id, txHash, answer))
  {
    hide CoreOk, Guarantee, TableOk, OrderOk, Moved, SaysFailed, SaysConfirmed;
    if c.orders[id].status == Broadcasting {
      OrderFacts(cfg, c, id);
      OpenOrder(cfg, c, id);
      var u := FailureNote(answer);
      assert u == NO_UPDATES.(reason := u.reason);
      TransitionRowMoves(c.orders, id, Broadcasting, Failed, u);
      CloseMoves(cfg, c, id, Write(c.orders[id], Failed, u), Closer(t, txHash, answer));
      hide FailureNote;
      MoveKeepsCore(cfg, c, FailOnChain(c, t, id, txHash, answer).0, t, id);
    } else {
      StayKeeps(cfg, c, t, Done);
    }
  }

  lemma ConfirmKeeps(cfg: Config, c: Core, t: nat, id: string, txHash: string, answer: ChainAnswer, now: int)
    requires CoreOk(cfg, c) && TaskOk(c, t, Confirming(id, txHash, answer))
    ensures Kept(cfg, c, t, Confirm(c, t, id, txHash, answer, now))
  {
    hide CoreOk, Guarantee, TableOk, OrderOk, Moved, SaysFailed, SaysConfirmed;
    if c.orders[id].status == Broadcasting {
      OrderFacts(cfg, c, id);
      OpenOrder(cfg, c, id);
      var u := NO_UPDATES.(confirmedAt := Some(now));
      TransitionRowMoves(c.orders, id, Broadcasting, Confirmed, u);
      CloseMoves(cfg, c, id, Write(c.orders[id], Confirmed, u), Closer(t, txHash, answer));
      MoveKeepsCore(cfg, c, Confirm(c, t, id, txHash, answer, now).0, t, id);
    } else {
      StayKeeps(cfg, c, t, Done);
    }
  }

  /** A micro-USDC buys one token: the conversion is exact. */
  lemma TokensExact(amount: nat)
    ensures Tokens(amount) == amount
  {
  }

  lemma NothingFound(entries: seq<L.Entry>, id: string)
    requires forall k | 0 <= k < |entries| :: !IsPaymentFor(entries[k], id)
    ensures L.FindRef(entries, L.X402Payment, id) == None
  {
    forall k | 0 <= k < |entries| ensures !(entries[k].source == L.X402Payment && entries[k].sourceRef == Some(id)) {
      assert !IsPaymentFor(entries[k], id);
    }
  }

  lemma CreditLookupKeeps(cfg: Config, c: Core, t: nat, o: Order, env: Env)
    requires CoreOk(cfg, c) && TaskOk(c, t, Crediting(o))
    ensures Kept(cfg, c, t, CreditLookup(c, o, env))
  {
    hide CoreOk, Guarantee;
    NothingFound(c.ledger.entries, o.info.id);
    StayKeeps(cfg, c, t, CreditLookup(c, o, env).1);
  }

  /** The appended entry, and what it leaves intact. */
  lemma PostedEntry(cfg: Config, c: Core, t: nat, o: Order)
    requires CoreOk(cfg, c) && TaskOk(c, t, LookedUp(o, None)) && L.Known(c.ledger, o.info.merchant)
    ensures var (ledger, e) := L.PostCredit(c.ledger, o.info.merchant, o.info.amount, L.X402Payment, Some(o.info.id));
            L.Consistent(ledger) && ledger.entries == c.ledger.entries + [e] && Credits(e, o.info)
            && EntryOk(c.(ledger := ledger), |c.ledger.entries|)
  {
    var (ledger, e) := L.PostCredit(c.ledger, o.info.merchant, o.info.amount, L.X402Payment, Some(o.info.id));
    L.CachedBalanceIsNet(c.ledger, o.info.merchant);
    L.AppendKeepsConsistent(c.ledger, e);
  }

  lemma CreditInsertKeeps(cfg: Config, c: Core, t: nat, o: Order, found: Option<L.Entry>)
    requires CoreOk(cfg, c) && TaskOk(c, t, LookedUp(o, found))
    ensures Kept(cfg, c, t, CreditInsert(c, o, found))
  {
    hide CoreOk, Guarantee, L.Consistent, TableOk, OrderOk;
    if L.Known(c.ledger, o.info.merchant) {
      TokensExact(o.info.amount);
      OrderFacts(cfg, c, o.info.id);
      PostedEntry(cfg, c, t, o);
      var (ledger, e) := L.PostCredit(c.ledger, o.info.merchant, o.info.amount, L.X402Payment, Some(o.info.id));
      assert ledger.entries[|c.ledger.entries|] == e;
      LedgerMoveKeepsCore(cfg, c, t, ledger);
    } else {
      StayKeeps(cfg, c, t, Done);
    }
  }

  lemma OrphanLookupKeeps(cfg: Config, c: Core, t: nat, o: Order, env: Env)
    requires CoreOk(cfg, c) && TaskOk(c, t, Orphaned(o))
    ensures Kept(cfg, c, t, OrphanLookup(c, o, env))
  {
    hide CoreOk, Guarantee;
    CreditLookupKeeps(cfg, c, t, o, env);
  }

  lemma OrphanInsertKeeps(cfg: Config, c: Core, t: nat, o: Order, found: Option<L.Entry>)
    requires CoreOk(cfg, c) && TaskOk(c, t, OrphanedLookedUp(o, found))
    ensures Kept(cfg, c, t, OrphanInsert(c, o, found))
  {
    hide CoreOk, Guarantee, CreditInsert;
    CreditInsertKeeps(cfg, c, t, o, found);
  }

  /** The row after confirmed -> token_credited. */
  lemma FinishCreditMoves(cfg: Config, c: Core, t: nat, o: Order, entryId: nat)
    requires TaskOk(c, t, Credited(o, entryId)) && OrderOk(cfg, c, o.info.id) && TableOk(c.orders)
    ensures var c' := FinishCredit(c, o, entryId).0;
            Moved(c, c', o.info.id) && OrderOk(cfg, c', o.info.id) && TableOk(c'.orders)
  {
    var id, u := o.info.id, NO_UPDATES.(ledgerEntryId := Some(entryId));
    TransitionRowMoves(c.orders, id, Confirmed, TokenCredited, u);
    hide TableOk, HasCredit;
  }

  /** The claim after it. */
  lemma FinishCreditClaims(c: Core, t: nat, o: Order, entryId: nat)
    requires HoldsClosed(c, t, o, Confirmed) && TableOk(c.orders)
    ensures var (c', pc) := FinishCredit(c, o, entryId);
            pc == Done || (pc.Notifying? && HoldsClosed(c', t, pc.order, pc.order.status) && Announces(pc.order, pc.kind))
  {
    var id, u := o.info.id, NO_UPDATES.(ledgerEntryId := Some(entryId));
    TransitionRowMoves(c.orders, id, Confirmed, TokenCredited, u);
    hide TableOk, Transition;
  }

  lemma FinishCreditKeeps(cfg: Config, c: Core, t: nat, o: Order, entryId: nat)
    requires CoreOk(cfg, c) && TaskOk(c, t, Credited(o, entryId))
    ensures Kept(cfg, c, t, FinishCredit(c, o, entryId))
  {
    hide CoreOk, Guarantee, TableOk, OrderOk, FinishCredit, Moved;
    OrderFacts(cfg, c, o.info.id);
    FinishCreditMoves(cfg, c, t, o, entryId);
    FinishCreditClaims(c, t, o, entryId);
    MoveKeepsCore(cfg, c, FinishCredit(c, o, entryId).0, t, o.info.id);
  }

  lemma NotifyKeeps(cfg: Config, c: Core, t: nat, o: Order, kind: EventKind)
    requires CoreOk(cfg, c) && TaskOk(c, t, Notifying(o, kind))
    ensures Kept(cfg, c, t, Notify(cfg, c, o, kind))
  {
    hide CoreOk, Guarantee;
    StayKeeps(cfg, c, t, Done);
    AddEventKeepsCore(cfg, c, t, Event(o.info.id, kind, WebhookUrl(cfg, o)));
  }

  // ---------- steps that leave the shared state alone ----------

  lemma NoStepKeeps(cfg: Config, c: Core, t: nat)
    requires CoreOk(cfg, c)
    ensures Kept(cfg, c, t, (c, Done))
  {
    hide CoreOk;
    StayKeeps(cfg, c, t, Done);
  }

  lemma CheckoutAdmitKeeps(cfg: Config, c: Core, t: nat, o: Order, xPayment: Option<string>, env: Env)
    requires CoreOk(cfg, c) && TaskOk(c, t, CheckoutFetched(o, xPayment))
    ensures Kept(cfg, c, t, CheckoutAdmit(c, o, xPayment, env))
  {
    hide CoreOk, Guarantee;
    StayKeeps(cfg, c, t, CheckoutAdmit(c, o, xPayment, env).1);
  }

  lemma CheckoutVerifyKeeps(cfg: Config, c: Core, t: nat, o: Order, tx: string, row: nat, at: int, env: Env)
    requires CoreOk(cfg, c) && TaskOk(c, t, CheckoutPersisted(o, tx, row, at))
    ensures Kept(cfg, c, t, (c, if env.reached && env.yes then CheckoutVerified(o, tx, row, at) else Done))
  {
    hide CoreOk, Guarantee;
    StayKeeps(cfg, c, t, if env.reached && env.yes then CheckoutVerified(o, tx, row, at) else Done);
  }

  lemma PollKeeps(cfg: Config, c: Core, t: nat, id: string, txHash: string, env: Env)
    requires CoreOk(cfg, c) && TaskOk(c, t, Selected(id, txHash))
    ensures Kept(cfg, c, t, Poll(c, id, txHash, env))
  {
    hide CoreOk, Guarantee;
    StayKeeps(cfg, c, t, Poll(c, id, txHash, env).1);
  }

  // ---------- any step, any action, any run ----------

  lemma StepKeeps(cfg: Config, c: Core, t: nat, pc: Pc, env: Env)
    requires CoreOk(cfg, c) && TaskOk(c, t, pc)
    ensures Kept(cfg, c, t, Step(cfg, c, t, pc, env))
  {
    hide CoreOk, Guarantee, TaskOk, Kept;
    match pc
    case Done => NoStepKeeps(cfg, c, t);
    case CheckoutFetched(o, xPayment) => CheckoutAdmitKeeps(cfg, c, t, o, xPayment, env);
    case CheckoutExpiring(o) => CheckoutExpireKeeps(cfg, c, t, o);
    case CheckoutFresh(o, tx, at) => CheckoutPersistKeeps(cfg, c, t, o, tx, at);
    case CheckoutPersisted(o, tx, row, at) => CheckoutVerifyKeeps(cfg, c, t, o, tx, row, at, env);
    case CheckoutVerified(o, tx, row, at) => CheckoutSettleKeeps(cfg, c, t, o, tx, row, at, env);
    case CheckoutSettled(o, tx, row, txHash) => CheckoutCommitKeeps(cfg, c, t, o, tx, row, txHash, env.now);
    case LegacyFetched(o, tx) => LegacyAcceptKeeps(cfg, c, t, o, tx);
    case LegacyPending(o, tx, row) => LegacySettleKeeps(cfg, c, t, o, tx, row, env);
    case LegacyFailing(o, row, reason) => LegacyAbortKeeps(cfg, c, t, o, row, reason);
    case LegacySettled(o, tx, row, txHash) => LegacyCommitKeeps(cfg, c, t, o, tx, row, txHash);
    case Selected(id, txHash) => PollKeeps(cfg, c, t, id, txHash, env);
    case Failing(id, txHash, answer) => FailOnChainKeeps(cfg, c, t, id, txHash, answer);
    case Confirming(id, txHash, answer) => ConfirmKeeps(cfg, c, t, id, txHash, answer, env.now);
    case Crediting(o) => CreditLookupKeeps(cfg, c, t, o, env);
    case LookedUp(o, found) => CreditInsertKeeps(cfg, c, t, o, found);
    case Credited(o, entryId) => FinishCreditKeeps(cfg, c, t, o, entryId);
    case Notifying(o, kind) => NotifyKeeps(cfg, c, t, o, kind);
    case Orphaned(o) => OrphanLookupKeeps(cfg, c, t, o, env);
    case OrphanedLookedUp(o, found) => OrphanInsertKeeps(cfg, c, t, o, found);
  }

  lemma RunKeeps(cfg: Config, s: System, t: nat, env: Env)
    requires Inv(cfg, s) && t in s.tasks
    ensures Inv(cfg, Next(cfg, s, Run(t, env)))
  {
    hide CoreOk, Guarantee, TaskOk, Step;
    var (c', pc) := Step(cfg, s.core, t, s.tasks[t], env);
    StepKeeps(cfg, s.core, t, s.tasks[t], env);
    forall other | other in s.tasks && other != t ensures TaskOk(c', other, s.tasks[other]) {
      ClaimStable(s.core, c', t, other, s.tasks[other]);
    }
  }

  /** What happens outside the tasks: orders are added, the ledger gets entries of other sources. */
  ghost predicate Outside(c: Core, c': Core) {
    && c' == c.(orders := c'.orders, ledger := c'.ledger)
    && (forall id | id in c.orders :: id in c'.orders && c'.orders[id] == c.orders[id])
    && c.ledger.entries <= c'.ledger.entries
    && (forall k | |c.ledger.entries| <= k < |c'.ledger.entries| :: c'.ledger.entries[k].source != L.X402Payment)
  }

  lemma OutsideKeepsTasks(cfg: Config, s: System, c': Core)
    requires Inv(cfg, s) && CoreOk(cfg, c') && Outside(s.core, c')
    ensures Inv(cfg, s.(core := c'))
  {
    hide CoreOk, TaskOk, Guarantee;
    forall t | t in s.tasks ensures TaskOk(c', t, s.tasks[t]) {
      OutsideGuarantee(s.core, c', t + 1);
      ClaimStable(s.core, c', t + 1, t, s.tasks[t]);
    }
  }

  lemma OutsideGuarantee(c: Core, c': Core, nobody: nat)
    requires Outside(c, c')
    ensures Guarantee(c, c', nobody)
  {
  }

  lemma NewOrderOk(cfg: Config, c: Core, c': Core, id: string)
    requires CoreOk(cfg, c) && id !in c.orders && id in c'.orders && c'.orders[id].status == Created
    requires c'.orders[id].txHash == None && c'.orders[id].info.recipient == cfg.recipient
    requires c' == c.(orders := c'.orders)
    ensures OrderOk(cfg, c', id)
  {
  }

  lemma OrderOkInLargerTable(cfg: Config, c: Core, c': Core, id: string)
    requires id in c.orders && OrderOk(cfg, c, id) && c' == c.(orders := c'.orders)
    requires id in c'.orders && c'.orders[id] == c.orders[id]
    ensures OrderOk(cfg, c', id)
  {
  }

  lemma CreateKeepsOrders(cfg: Config, c: Core, asked: OrderInfo, answer: Order)
    requires CoreOk(cfg, c) && MayCreate(cfg, c.orders, asked, answer)
    ensures OrdersOk(cfg, c.(orders := Insert(c.orders, answer)))
    ensures CopyOk(c.(orders := Insert(c.orders, answer)), answer)
  {
    hide TableOk, ProofsOk, EntriesOk, EventsOk, ResponsesOk, SettlesOk, MayReturn;
    var c' := c.(orders := Insert(c.orders, answer));
    InsertKeepsTable(c.orders, asked, answer);
    forall i | i in c'.orders ensures OrderOk(cfg, c', i) {
      if i in c.orders { OrderOkInLargerTable(cfg, c, c', i); } else { NewOrderOk(cfg, c, c', i); }
    }
  }

  lemma CreateKeepsRows(cfg: Config, c: Core, c': Core)
    requires CoreOk(cfg, c) && c' == c.(orders := c'.orders)
    requires forall id | id in c.orders :: id in c'.orders && c'.orders[id] == c.orders[id]
    ensures ProofsOk(cfg, c') && EntriesOk(c') && EventsOk(c')
  {
    hide OrdersOk, ResponsesOk, SettlesOk, L.Consistent, ProofFor, OrderOk;
    forall k | 0 <= k < |c'.proofs| ensures ProofOk(cfg, c', k) { assert ProofOk(cfg, c, k); }
    forall k | 0 <= k < |c'.ledger.entries| ensures EntryOk(c', k) { assert EntryOk(c, k); }
    forall k | 0 <= k < |c'.events| ensures EventOk(c', k) { assert EventOk(c, k); }
  }

  lemma CreateKeepsCalls(cfg: Config, c: Core, c': Core)
    requires CoreOk(cfg, c) && c' == c.(orders := c'.orders)
    requires forall id | id in c.orders :: id in c'.orders && c'.orders[id] == c.orders[id]
    ensures ResponsesOk(c') && SettlesOk(c')
  {
    hide OrdersOk, ProofsOk, EntriesOk, EventsOk, OrderOk;
    forall k | 0 <= k < |c'.responses| ensures ResponseOk(c', k) { assert ResponseOk(c, k); }
    forall k | 0 <= k < |c'.settles| ensures SettleOk(c', k) { assert SettleOk(c, k); }
  }

  lemma CreateKeepsCore(cfg: Config, c: Core, asked: OrderInfo, answer: Order)
    requires CoreOk(cfg, c) && MayCreate(cfg, c.orders, asked, answer)
    ensures CoreOk(cfg, c.(orders := Insert(c.orders, answer)))
  {
    var c' := c.(orders := Insert(c.orders, answer));
    CreateKeepsOrders(cfg, c, asked, answer);
    InsertKeepsTable(c.orders, asked, answer);
    hide MayCreate, TableOk, Insert, OrdersOk, ProofsOk, EntriesOk, EventsOk, ResponsesOk, SettlesOk;
    CreateKeepsRows(cfg, c, c');
    CreateKeepsCalls(cfg, c, c');
  }

  lemma CreateKeeps(cfg: Config, s: System, asked: OrderInfo, answer: Order)
    requires Inv(cfg, s) && MayCreate(cfg, s.core.orders, asked, answer)
    ensures var c' := s.core.(orders := Insert(s.core.orders, answer));
            Inv(cfg, s.(core := c')) && CopyOk(c', answer)
  {
    hide CoreOk, TaskOk, MayCreate;
    CreateKeepsCore(cfg, s.core, asked, answer);
    CreateKeepsOrders(cfg, s.core, asked, answer);
    OutsideKeepsTasks(cfg, s, s.core.(orders := Insert(s.core.orders, answer)));
  }

  lemma DebitKeeps(cfg: Config, s: System, m: string, amount: int)
    requires Inv(cfg, s)
    ensures Inv(cfg, Next(cfg, s, DebitCall(m, amount)))
  {
    hide TaskOk, OrdersOk, ProofsOk, EventsOk, ResponsesOk, SettlesOk, L.Consistent;
    var c := s.core;
    var ledger := L.DebitSpec(c.ledger, m, amount, L.AiCall, None).0;
    L.DebitKeepsConsistent(c.ledger, m, amount, L.AiCall, None);
    LedgerMoveKeepsCore(cfg, c, 0, ledger);
    OutsideKeepsTasks(cfg, s, c.(ledger := ledger));
  }

  /** New merchants and skipped entry ids leave the history alone. */
  lemma SameHistoryKeeps(cfg: Config, s: System, ledger: L.State)
    requires Inv(cfg, s) && ledger.entries == s.core.ledger.entries && ledger.balances == s.core.ledger.balances
    requires ledger.nextId >= s.core.ledger.nextId && s.core.ledger.merchants <= ledger.merchants
    ensures Inv(cfg, s.(core := s.core.(ledger := ledger)))
  {
    hide TaskOk, OrdersOk, ProofsOk, EventsOk, ResponsesOk, SettlesOk, L.Consistent;
    var c := s.core;
    L.SameHistoryConsistent(c.ledger, ledger);
    LedgerMoveKeepsCore(cfg, c, 0, ledger);
    OutsideKeepsTasks(cfg, s, c.(ledger := ledger));
  }

  lemma LoseReplyKeeps(cfg: Config, s: System, t: nat)
    requires Inv(cfg, s) && t in s.tasks
    ensures Inv(cfg, Next(cfg, s, LoseReply(t)))
  {
    hide CoreOk;
    assert TaskOk(s.core, t, WithoutReply(s.tasks[t]));
    hide TaskOk;
  }

  /** Every action keeps the invariant. */
  lemma NextKeeps(cfg: Config, s: System, a: Action)
    requires Inv(cfg, s)
    ensures Inv(cfg, Next(cfg, s, a))
  {
    hide CoreOk, MayCreate, Step;
    match a
    case CreateOrder(asked, answer) =>
      if MayCreate(cfg, s.core.orders, asked, answer) { CreateKeeps(cfg, s, asked, answer); }
    case StartCheckout(t, asked, answer, xPayment) =>
      if MayCreate(cfg, s.core.orders, asked, answer) { CreateKeeps(cfg, s, asked, answer); }
    case StartLegacy(t, id, tx) => if id in s.core.orders { TableFacts(cfg, s.core, id); }
    case StartConfirm(t, id) =>
    case Run(t, env) => if t in s.tasks { RunKeeps(cfg, s, t, env); }
    case Die(t) =>
    case DebitCall(m, amount) => DebitKeeps(cfg, s, m, amount);
    case LoseReply(t) => if t in s.tasks { LoseReplyKeeps(cfg, s, t); }
    case Register(m) => SameHistoryKeeps(cfg, s, s.core.ledger.(merchants := s.core.ledger.merchants + {m}));
    case LedgerRollback => SameHistoryKeeps(cfg, s, s.core.ledger.(nextId := s.core.ledger.nextId + 1));
  }

  lemma TableFacts(cfg: Config, c: Core, id: string)
    requires CoreOk(cfg, c) && id in c.orders
    ensures c.orders[id].info.id == id
  {
  }

  /** Every reachable state satisfies the invariant. */
  lemma {:induction false} ReachableInv(cfg: Config, s: System, actions: seq<Action>)
    requires Initial(s)
    ensures Inv(cfg, Execute(cfg, s, actions))
    decreases |actions|
  {
    hide Next;
    if actions == [] {
      InitialInv(cfg, s);
    } else {
      ReachableInv(cfg, s, actions[..|actions| - 1]);
      NextKeeps(cfg, Execute(cfg, s, actions[..|actions| - 1]), actions[|actions| - 1]);
    }
  }

  lemma InitialInv(cfg: Config, s: System)
    requires Initial(s)
    ensures Inv(cfg, s)
  {
  }
}
