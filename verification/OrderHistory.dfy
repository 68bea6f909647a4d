/** What becomes of one row of the orders table over a run of the whole pipeline, column by column. */
module OrderHistory {
  import opened Wrappers
  import opened Orders
  import opened Gateway
  import opened Pipeline
  import L = Ledger
  import T = PipelineTheorems

  /** The moves the pipeline makes, each with the one or two columns it writes.  Nothing cancels or refunds an order. */
  predicate Moves(o: Order, o': Order) {
    || (o.status == Created && (o' == o.(status := Pending) || o' == o.(status := Expired)))
    || (o.status == Created && o'.txHash.Some? && o'.confirmedAt.Some?
        && o' == o.(status := Confirmed, txHash := o'.txHash, confirmedAt := o'.confirmedAt))
    || (o.status == Pending && o'.txHash.Some? && o' == o.(status := Broadcasting, txHash := o'.txHash))
    || ((o.status == Pending || o.status == Broadcasting) && o'.reason.Some? && o' == o.(status := Failed, reason := o'.reason))
    || (o.status == Broadcasting && o'.confirmedAt.Some? && o' == o.(status := Confirmed, confirmedAt := o'.confirmedAt))
    || (o.status == Confirmed && o'.ledgerEntryId.Some? && o' == o.(status := TokenCredited, ledgerEntryId := o'.ledgerEntryId))
  }

  /** Every row of t is in t', as it was or moved. */
  ghost predicate RowsMove(t: Table, t': Table) {
    forall id | id in t :: id in t' && (t'[id] == t[id] || Moves(t[id], t'[id]))
  }

  lemma TransitionMoves(t: Table, id: string, from: Status, to: Status, u: Updates)
    requires Transition(t, id, Some(from), to, u).Ok?
    requires || (from == Created && (to == Pending || to == Expired) && u == NO_UPDATES)
             || (from == Pending && to == Broadcasting && u == NO_UPDATES.(txHash := u.txHash) && u.txHash.Some?)
             || ((from == Pending || from == Broadcasting) && to == Failed && u == NO_UPDATES.(reason := u.reason) && u.reason.Some?)
             || (from == Broadcasting && to == Confirmed && u == NO_UPDATES.(confirmedAt := u.confirmedAt) && u.confirmedAt.Some?)
             || (from == Confirmed && to == TokenCredited && u == NO_UPDATES.(ledgerEntryId := u.ledgerEntryId) && u.ledgerEntryId.Some?)
    ensures RowsMove(t, Transition(t, id, Some(from), to, u).value)
  {
    TransitionExactly(t, id, Some(from), to, u);
    hide Transition;
  }

  lemma SettlementMoves(c: Core, t: nat, o: Order, env: Env, row: nat, tx: string, txHash: string, reason: string)
    ensures RowsMove(c.orders, CheckoutExpire(c, o).0.orders)
    ensures RowsMove(c.orders, CheckoutCommit(c, t, o, row, txHash, env.now).0.orders)
    ensures RowsMove(c.orders, LegacyAbort(c, o, reason).0.orders)
    ensures RowsMove(c.orders, LegacyCommit(c, t, o, txHash).0.orders)
  {
    var id := o.info.id;
    CommitCheckoutOutcome(c.orders, id, txHash, env.now);
    var failed, sent := NO_UPDATES.(reason := Some(reason)), NO_UPDATES.(txHash := Some(txHash));
    if Transition(c.orders, id, Some(Created), Expired, NO_UPDATES).Ok? { TransitionMoves(c.orders, id, Created, Expired, NO_UPDATES); }
    if Transition(c.orders, id, Some(Pending), Failed, failed).Ok? { TransitionMoves(c.orders, id, Pending, Failed, failed); }
    if Transition(c.orders, id, Some(Pending), Broadcasting, sent).Ok? { TransitionMoves(c.orders, id, Pending, Broadcasting, sent); }
    hide Transition, CommitCheckout;
  }

  lemma AcceptanceMoves(cfg: Config, c: Core, t: nat, o: Order, tx: string)
    ensures RowsMove(c.orders, LegacyAccept(cfg, c, t, o, tx).0.orders)
  {
    AcceptProofOutcome(Store(c.orders, c.proofs), ProofRow(o.info.id, tx, None, true, t));
    hide AcceptProof, ProofFor;
  }

  lemma ConfirmationMoves(c: Core, t: nat, id: string, txHash: string, answer: ChainAnswer, now: int)
    ensures RowsMove(c.orders, FailOnChain(c, t, id, txHash, answer).0.orders)
    ensures RowsMove(c.orders, Confirm(c, t, id, txHash, answer, now).0.orders)
  {
    var failed, confirmed := FailureNote(answer), NO_UPDATES.(confirmedAt := Some(now));
    if Transition(c.orders, id, Some(Broadcasting), Failed, failed).Ok? { TransitionMoves(c.orders, id, Broadcasting, Failed, failed); }
    if Transition(c.orders, id, Some(Broadcasting), Confirmed, confirmed).Ok? { TransitionMoves(c.orders, id, Broadcasting, Confirmed, confirmed); }
    hide Transition, FailureNote;
  }

  lemma CreditMoves(c: Core, o: Order, entryId: nat)
    ensures RowsMove(c.orders, FinishCredit(c, o, entryId).0.orders)
  {
    var credited := NO_UPDATES.(ledgerEntryId := Some(entryId));
    if Transition(c.orders, o.info.id, Some(Confirmed), TokenCredited, credited).Ok? {
      TransitionMoves(c.orders, o.info.id, Confirmed, TokenCredited, credited);
    }
    hide Transition;
  }

  /** Whatever a task does next, rows only move so. */
  lemma StepMovesRows(cfg: Config, c: Core, t: nat, pc: Pc, env: Env)
    ensures RowsMove(c.orders, Step(cfg, c, t, pc, env).0.orders)
  {
    hide RowsMove, CheckoutExpire, CheckoutCommit, LegacyAbort, LegacyCommit, LegacyAccept, FailOnChain, Confirm, FinishCredit;
    match pc
    case CheckoutExpiring(o) => SettlementMoves(c, t, o, env, 0, "", "", "");
    case CheckoutSettled(o, tx, row, txHash) => SettlementMoves(c, t, o, env, row, tx, txHash, "");
    case LegacyFetched(o, tx) => AcceptanceMoves(cfg, c, t, o, tx);
    case LegacyFailing(o, row, reason) => SettlementMoves(c, t, o, env, row, "", "", reason);
    case LegacySettled(o, tx, row, txHash) => SettlementMoves(c, t, o, env, row, tx, txHash, "");
    case Failing(id, txHash, answer) => ConfirmationMoves(c, t, id, txHash, answer, env.now);
    case Confirming(id, txHash, answer) => ConfirmationMoves(c, t, id, txHash, answer, env.now);
    case Credited(o, entryId) => CreditMoves(c, o, entryId);
    case _ =>
      OtherStepsKeepRows(cfg, c, t, pc, env);
      RowsMayStay(c.orders);
  }

  lemma OtherStepsKeepRows(cfg: Config, c: Core, t: nat, pc: Pc, env: Env)
    requires !pc.CheckoutExpiring? && !pc.CheckoutSettled? && !pc.LegacyFetched? && !pc.LegacyFailing? && !pc.LegacySettled?
    requires !pc.Failing? && !pc.Confirming? && !pc.Credited?
    ensures Step(cfg, c, t, pc, env).0.orders == c.orders
  {
    hide Transition, CommitCheckout, AcceptProof, InsertProof, ProofFor, L.FindRef, L.InsertCredit, HashSeen;
  }

  lemma RowsMayStay(t: Table)
    ensures RowsMove(t, t)
  {
  }

  /** A row that was not there before has all its later columns empty. */
  ghost predicate NewRowsFresh(t: Table, t': Table) {
    forall id | id in t' && id !in t :: t'[id] == Order(t'[id].info, Created, None, None, None, None)
  }

  lemma InsertAddsFresh(t: Table, asked: OrderInfo, answer: Order)
    requires MayReturn(t, asked, answer)
    ensures RowsMove(t, Insert(t, answer)) && NewRowsFresh(t, Insert(t, answer))
  {
    CreateExactly(t, asked, answer);
    hide MayReturn;
  }

  lemma StepAddsNoRows(cfg: Config, c: Core, t: nat, pc: Pc, env: Env)
    ensures Step(cfg, c, t, pc, env).0.orders.Keys == c.orders.Keys
  {
    hide ProofFor, HashSeen, Fits, HashTaken, Write, Successors, L.FindRef, L.InsertCredit, FailureNote;
  }

  lemma NextMovesRows(cfg: Config, s: System, a: Action)
    ensures RowsMove(s.core.orders, Next(cfg, s, a).core.orders)
    ensures NewRowsFresh(s.core.orders, Next(cfg, s, a).core.orders)
  {
    hide Step, Moves, MayReturn, Insert;
    match a
    case CreateOrder(asked, answer) => if MayReturn(s.core.orders, asked, answer) { InsertAddsFresh(s.core.orders, asked, answer); }
    case StartCheckout(_, asked, answer, _) => if MayReturn(s.core.orders, asked, answer) { InsertAddsFresh(s.core.orders, asked, answer); }
    case Run(t, env) =>
      if t in s.tasks {
        StepMovesRows(cfg, s.core, t, s.tasks[t], env);
        StepAddsNoRows(cfg, s.core, t, s.tasks[t], env);
      }
    case _ =>
  }

  // ---------- every run ----------

  /** What the columns of a row hold, by its status. */
  predicate ColumnsMatch(o: Order) {
    && (o.status != Canceled && o.status != Refunded)
    && (o.confirmedAt.Some? <==> o.status == Confirmed || o.status == TokenCredited)
    && (o.ledgerEntryId.Some? <==> o.status == TokenCredited)
    && (o.reason.Some? <==> o.status == Failed)
    && (o.status == Broadcasting || o.status == Confirmed || o.status == TokenCredited ==> o.txHash.Some?)
    && (o.status == Created || o.status == Pending || o.status == Expired ==> o.txHash == None)
  }

  /** In every reachable state the status of an order tells which of its columns are set. */
  lemma {:induction false} StatusTellsColumns(cfg: Config, s: System, actions: seq<Action>, id: string)
    requires Initial(s) && id in Execute(cfg, s, actions).core.orders
    ensures ColumnsMatch(Execute(cfg, s, actions).core.orders[id])
    decreases |actions|
  {
    hide Next;
    if actions != [] {
      var before := Execute(cfg, s, actions[..|actions| - 1]);
      if id in before.core.orders { StatusTellsColumns(cfg, s, actions[..|actions| - 1], id); }
      NextMovesRows(cfg, before, actions[|actions| - 1]);
    }
  }

  /** However a run goes on, an order keeps its written-once columns, its hash and its times once they are set, and an order
      that has expired, failed or been credited is never touched again. */
  lemma {:induction false} RowsAreKept(cfg: Config, s: System, more: seq<Action>, id: string)
    requires id in s.core.orders && ColumnsMatch(s.core.orders[id])
    ensures id in Execute(cfg, s, more).core.orders
    ensures var o, later := s.core.orders[id], Execute(cfg, s, more).core.orders[id];
            && ColumnsMatch(later) && later.info == o.info
            && (o.txHash.Some? ==> later.txHash == o.txHash) && (o.confirmedAt.Some? ==> later.confirmedAt == o.confirmedAt)
            && (o.status == Expired || o.status == Failed || o.status == TokenCredited ==> later == o)
            && (o.status == Confirmed ==> later == o || later.status == TokenCredited)
    decreases |more|
  {
    hide Next;
    if more != [] {
      RowsAreKept(cfg, s, more[..|more| - 1], id);
      NextMovesRows(cfg, Execute(cfg, s, more[..|more| - 1]), more[|more| - 1]);
    }
  }

  // ---------- tokens are for top-ups ----------

  /** In every reachable state an order with a ledger entry has no settlement kind, an empty one, or `token_topup`. */
  lemma {:induction false} OnlyTopupsArePosted(cfg: Config, s: System, actions: seq<Action>, id: string)
    requires Initial(s) && id in Execute(cfg, s, actions).core.orders
    requires exists e :: e in Execute(cfg, s, actions).core.ledger.entries && e.source == L.X402Payment && e.sourceRef == Some(id)
    ensures var kind := Execute(cfg, s, actions).core.orders[id].info.kind; kind == None || kind == Some("") || kind == Some("token_topup")
  {
    var c := Execute(cfg, s, actions).core;
    var e :| e in c.ledger.entries && e.source == L.X402Payment && e.sourceRef == Some(id);
    hide Execute;
    assert T.Posted(c, id);
    T.OrdersAgreeWithLedger(cfg, s, actions, id);
    TopupKinds(c.orders[id].info);
  }

  /** An order the protected route has inserted is for access, not tokens: no continuation, not even one that pays it
      through /proof, posts an entry for it. */
  lemma {:induction false} ProtectedOrdersAreNeverPosted(cfg: Config, s: System, actions: seq<Action>, more: seq<Action>,
                                                         t: nat, asked: OrderInfo, answer: Order, xPayment: Option<string>)
    requires Initial(s)
    requires var before, start := Execute(cfg, s, actions), StartCheckout(t, asked, answer, xPayment);
             answer.info.id !in before.core.orders && answer.info.id in Next(cfg, before, start).core.orders
    ensures var later := Execute(cfg, s, actions + [StartCheckout(t, asked, answer, xPayment)] + more).core;
            forall e | e in later.ledger.entries :: e.source != L.X402Payment || e.sourceRef != Some(answer.info.id)
  {
    var start := StartCheckout(t, asked, answer, xPayment);
    var all := actions + [start];
    var id, now, later := answer.info.id, Execute(cfg, s, all), Execute(cfg, s, all + more);
    T.OneMoreAction(cfg, s, actions, start);
    ProtectedKind(cfg, Execute(cfg, s, actions), t, asked, answer, xPayment);
    StatusTellsColumns(cfg, s, all, id);
    T.ExecuteSplits(cfg, s, all, more);
    hide Execute, Next;
    RowsAreKept(cfg, now, more, id);
    if exists e :: e in later.core.ledger.entries && e.source == L.X402Payment && e.sourceRef == Some(id) {
      OnlyTopupsArePosted(cfg, s, all + more, id);
      assert false;
    }
  }

  lemma ProtectedKind(cfg: Config, s: System, t: nat, asked: OrderInfo, answer: Order, xPayment: Option<string>)
    requires var s' := Next(cfg, s, StartCheckout(t, asked, answer, xPayment)); answer.info.id !in s.core.orders && answer.info.id in s'.core.orders
    ensures Next(cfg, s, StartCheckout(t, asked, answer, xPayment)).core.orders[answer.info.id].info.kind == Some("merchant_checkout")
  {
  }
}
