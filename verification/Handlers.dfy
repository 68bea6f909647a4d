/** The gateway's handlers as the gateway runs them: one method each over the database and the token
    service, giving way to every other task at each await.  What a handler does between two awaits is
    one step of the pipeline, so its run is a run of the pipeline. */
module Handlers {
  import opened Wrappers
  import opened Orders
  import opened Gateway
  import opened Pipeline
  import L = Ledger
  import P = ProofVerifier
  import T = PipelineTheorems

  // What a handler finds when an await returns: the state the other tasks have left, and the answer awaited.
  datatype Turn = Turn(world: Core, env: Env)

  // What it did between two awaits.
  datatype Move = Move(turn: Turn, after: Core)

  /** Where a task that started at `start` stands after these moves. */
  ghost function PcAfter(cfg: Config, t: nat, start: Pc, moves: seq<Move>): Pc
    decreases |moves|
  {
    if moves == [] then start
    else
      var last := moves[|moves| - 1];
      Step(cfg, last.turn.world, t, PcAfter(cfg, t, start, moves[..|moves| - 1]), last.turn.env).1
  }

  /** Every move left the shared state as the step due at that point leaves it. */
  ghost predicate Follows(cfg: Config, t: nat, start: Pc, moves: seq<Move>) {
    forall k | 0 <= k < |moves| ::
      moves[k].after == Step(cfg, moves[k].turn.world, t, PcAfter(cfg, t, start, moves[..k]), moves[k].turn.env).0
  }

  /** The hash of the 200 response a move adds for its task. */
  ghost function Replies(m: Move, t: nat): Option<string> {
    var was, now := m.turn.world.responses, m.after.responses;
    if |was| < |now| && now[|now| - 1].task == t then Some(now[|now| - 1].txHash) else None
  }

  lemma OneMoreMove(cfg: Config, t: nat, start: Pc, moves: seq<Move>, m: Move)
    requires Follows(cfg, t, start, moves)
    requires m.after == Step(cfg, m.turn.world, t, PcAfter(cfg, t, start, moves), m.turn.env).0
    ensures Follows(cfg, t, start, moves + [m])
    ensures PcAfter(cfg, t, start, moves + [m]) == Step(cfg, m.turn.world, t, PcAfter(cfg, t, start, moves), m.turn.env).1
  {
    hide Step;
    var longer := moves + [m];
    assert longer[..|moves|] == moves;
    forall k | 0 <= k < |longer|
      ensures longer[k].after == Step(cfg, longer[k].turn.world, t, PcAfter(cfg, t, start, longer[..k]), longer[k].turn.env).0
    {
      if k < |moves| { assert longer[..k] == moves[..k]; }
    }
  }

  // How the protected route goes on after its checks.
  datatype Admission = Refused(code: nat) | Overdue | Fresh

  // What WEA's answer means to the confirmer.
  datatype Verdict = Wait | OnChainFailure | OnChainSuccess

  /** The first n characters. */
  function Cut(s: string, n: nat): string {
    if |s| > n then s[..n] else s
  }

  class Handler {
    const cfg: Config
    const task: nat
    const db: Database
    const tokens: L.LedgerService
    var events: seq<Event>

    // the record of the run, which no handler reads
    ghost var settles: seq<SettleCall>
    ghost var responses: seq<Response>
    ghost var takers: map<string, Taker>
    ghost var closers: map<string, Closer>

    // the turns still to come and those taken, and what the last await returned with
    var turns: seq<Turn>
    var taken: nat
    var turn: Turn

    // where the task began, the moves made since, and the place reached in the pipeline
    ghost var start: Pc
    ghost var moves: seq<Move>
    ghost var pc: Pc

    constructor (cfg: Config, task: nat, db: Database, tokens: L.LedgerService, now: Turn)
      ensures this.cfg == cfg && this.task == task && this.db == db && this.tokens == tokens
      ensures moves == [] && events == []
    {
      this.cfg, this.task, this.db, this.tokens := cfg, task, db, tokens;
      events, settles, responses, takers, closers := [], [], [], map[], map[];
      turns, taken, turn, start, moves, pc := [], 0, now, Done, [], Done;
    }

    ghost function Now(): Core
      reads `events, `settles, `responses, `takers, `closers, db, db.table, tokens
    {
      Core(db.table.rows, db.proofs, tokens.Value(), events, settles, responses, takers, closers)
    }

    /** The moves so far, one on each turn taken, are the steps of the pipeline from `start` to `pc`. */
    ghost predicate OnTrack()
      reads `start, `moves, `pc, `turns, `taken
    {
      && Follows(cfg, task, start, moves) && PcAfter(cfg, task, start, moves) == pc
      && taken == |moves| <= |turns| && forall k | 0 <= k < taken :: moves[k].turn == turns[k]
    }

    /** An await has just returned, and the handler stands at `at`. */
    ghost predicate Due(at: Pc)
      reads this, db, db.table, tokens
    {
      OnTrack() && pc == at && Now() == turn.world && taken < |turns| && turn == turns[taken]
    }

    /** Since the await the handler has done exactly the step that is due, which leads to `to`. */
    ghost predicate StepDone(to: Pc)
      reads this, db, db.table, tokens
    {
      OnTrack() && Step(cfg, turn.world, task, pc, turn.env) == (Now(), to) && taken < |turns| && turn == turns[taken]
    }

    /** The handler ran from `from` to its end. */
    ghost predicate Ran(from: Pc)
      reads this, db, db.table, tokens
    {
      OnTrack() && start == from && pc == Done && moves != [] && Now() == moves[|moves| - 1].after
    }

    /** The hash with which the last move answered 200, if it did. */
    ghost function Succeeded(): Option<string>
      reads `moves
    {
      if moves == [] then None else Replies(moves[|moves| - 1], task)
    }

    /** An await returns: the state is whatever the other tasks have made of it. */
    method Resume()
      requires taken < |turns|
      modifies `events, `settles, `responses, `takers, `closers, `turn, db, db.table, tokens
      ensures turn == turns[taken] && Now() == turn.world
    {
      turn := turns[taken];
      var w := turn.world;
      db.table.rows, db.proofs := w.orders, w.proofs;
      tokens.entries, tokens.balances := w.ledger.entries, w.ledger.balances;
      tokens.nextId, tokens.merchants := w.ledger.nextId, w.ledger.merchants;
      events := w.events;
      settles, responses, takers, closers := w.settles, w.responses, w.takers, w.closers;
    }

    method Begin(ghost from: Pc, turns: seq<Turn>)
      requires turns != []
      modifies this, db, db.table, tokens
      ensures Due(from) && start == from && this.turns == turns && taken == 0 && turn == turns[0]
    {
      this.turns, taken, start, pc, moves := turns, 0, from, from, [];
      Resume();
    }

    /** Gives way, once the step due is done. */
    method Await(ghost to: Pc)
      requires StepDone(to) && taken + 1 < |turns|
      modifies this, db, db.table, tokens
      ensures Due(to) && start == old(start) && turns == old(turns) && taken == old(taken) + 1 && turn == turns[taken]
    {
      EndMove(to);
      Resume();
    }

    method Return()
      requires StepDone(Done)
      modifies `moves, `pc, `taken
      ensures Ran(start) && Succeeded() == Replies(Move(turn, Now()), task) && taken == old(taken) + 1
    {
      EndMove(Done);
    }

    method EndMove(ghost to: Pc)
      requires StepDone(to)
      modifies `moves, `pc, `taken
      ensures OnTrack() && pc == to && taken == old(taken) + 1
      ensures moves == old(moves) + [Move(turn, Now())]
    {
      hide Step;
      OneMoreMove(cfg, task, start, moves, Move(turn, Now()));
      moves, pc, taken := moves + [Move(turn, Now())], to, taken + 1;
    }

    // ---------- POST /v1/payments/{id}/proof ----------

    predicate Proves(order: Order, tx: string) {
      ProofFor(cfg, tx, order.info).Ok?
    }

    /** The verifier meets a dangling index and raises something other than a ProofError. */
    predicate Crashes(order: Order, tx: string) {
      ProofFor(cfg, tx, order.info) == Err(P.IndexOutOfRange)
    }

    /** The string is no proof for the order, for a reason the verifier reports. */
    predicate Refutes(order: Order, tx: string) {
      !Proves(order, tx) && !Crashes(order, tx)
    }

    /** Which answer a transition out of `from` that writes this hash gets: an unknown order, a hash that does not fit and a
        hash of another order are errors nobody catches. */
    predicate MovesWithHash(t: Table, id: string, from: Status, txHash: string) {
      && id in t && t[id].status == from && |txHash| <= 96
      && forall o | o in t && o != id :: t[o].txHash != Some(txHash)
    }

    predicate ConflictsWith(t: Table, id: string, from: Status) {
      id in t && t[id].status != from
    }

    /** Steps 1 and 2: verify, persist the proof, created -> pending. */
    method AcceptLegacy(order: Order, tx: string) returns (r: Result<Order, nat>, ghost row: nat)
      requires Due(LegacyFetched(order, tx))
      modifies `takers, db, db.table
      ensures StepDone(if r.Ok? then LegacyPending(r.value, tx, row) else Done)
      ensures r.Err? ==> r.error in {400, 409, 500} && Replies(Move(turn, Now()), task) == None
      ensures r.Ok? ==> order.info.id in turn.world.orders && r.value.info == turn.world.orders[order.info.id].info
      ensures r == Err(400) <==> order.status == Created && Refutes(order, tx)
      ensures r == Err(409) <==>
                order.status != Created || (Proves(order, tx) && ConflictsWith(turn.world.orders, order.info.id, Created))
      ensures r == Err(500) <==>
                order.status == Created && (Crashes(order, tx) || (Proves(order, tx) && order.info.id !in turn.world.orders))
      ensures r.Ok? ==> r.value == turn.world.orders[order.info.id].(status := Pending)
      ensures db.table.rows == if r.Ok? then turn.world.orders[order.info.id := r.value] else turn.world.orders
      ensures db.proofs == turn.world.proofs + if r.Ok? || r.error == 400 then [ProofRow(order.info.id, tx, None, r.Ok?, task)] else []
    {
      hide P.VerifySpec, P.Accepts, OnTrack;
      row := |db.proofs|;
      if order.status != Created {
        r := Err(409);
        return;
      }
      var verdict := P.VerifyProof(cfg.chain, tx, ExpectationOf(cfg, order.info));
      if verdict == Err(P.IndexOutOfRange) {
        r := Err(500);
        return;
      }
      if verdict.Err? {
        var failed := db.InsertProofRow(ProofRow(order.info.id, tx, None, false, task));
        r := Err(400);
        return;
      }
      var passing := ProofRow(order.info.id, tx, None, true, task);
      AcceptProofOutcome(db.Contents(), passing);
      var accepted := db.AcceptProofTx(passing);
      if accepted.Err? {
        r := Err(if accepted.error == OrderFault(NotFound) then 500 else 409);
        return;
      }
      takers := takers[order.info.id := Taker(task, row)];
      r := Ok(accepted.value);
    }

    /** Step 3: the facilitator's answer. */
    method SettleLegacy(order: Order, tx: string, ghost row: nat) returns (settled: Option<string>)
      requires Due(LegacyPending(order, tx, row))
      modifies `settles
      ensures settled == turn.env.settled
      ensures StepDone(if settled.Some? then LegacySettled(order, tx, row, settled.value) else LegacyFailing(order, row, SettleFailure(turn.env)))
      ensures SettleFailure(turn.env) == if turn.env.reached then "wea_settle_rejected: " + turn.env.reason
                                         else Cut("wea_settle_failed: " + turn.env.reason, 255)
      ensures settles == turn.world.settles + [SettleCall(Legacy, task, order.info.id, tx, row, None, settled)]
    {
      hide OnTrack;
      settled := turn.env.settled;
      settles := settles + [SettleCall(Legacy, task, order.info.id, tx, row, None, settled)];
    }

    /** Nobody catches a missing order or a reason its column cannot hold. */
    function AbortCode(t: Table, id: string, reason: string): nat {
      if id !in t || (t[id].status == Pending && |reason| > 255) then 500 else 502
    }

    /** Step 3, refused: pending -> failed; a conflict is let pass. */
    method AbortLegacy(order: Order, ghost row: nat, reason: string) returns (code: nat)
      requires Due(LegacyFailing(order, row, reason))
      modifies db.table
      ensures StepDone(Done) && Replies(Move(turn, Now()), task) == None
      ensures code == AbortCode(turn.world.orders, order.info.id, reason) && code in {500, 502}
      ensures var t, id := turn.world.orders, order.info.id;
              db.table.rows == if id in t && t[id].status == Pending && |reason| <= 255
                               then t[id := t[id].(status := Failed, reason := Some(reason))] else t
    {
      hide OnTrack;
      var aborted := db.table.TransitionRow(order.info.id, Some(Pending), Failed, NO_UPDATES.(reason := Some(reason)));
      code := if aborted.Ok? || aborted.error.Conflict? then 502 else 500;
    }

    /** Step 5: pending -> broadcasting with the hash, and the answer. */
    method CommitLegacy(order: Order, ghost tx: string, ghost row: nat, txHash: string) returns (code: nat)
      requires Due(LegacySettled(order, tx, row, txHash))
      modifies `responses, db.table
      ensures StepDone(Done)
      ensures Replies(Move(turn, Now()), task) == if code == 200 then Some(txHash) else None
      ensures code in {200, 409, 500}
      ensures code == 200 <==> MovesWithHash(turn.world.orders, order.info.id, Pending, txHash)
      ensures code == 409 <==> ConflictsWith(turn.world.orders, order.info.id, Pending)
      ensures var t, id := turn.world.orders, order.info.id;
              db.table.rows == if code == 200 then t[id := t[id].(status := Broadcasting, txHash := Some(txHash))] else t
    {
      hide OnTrack;
      var moved := db.table.TransitionRow(order.info.id, Some(Pending), Broadcasting, NO_UPDATES.(txHash := Some(txHash)));
      if moved.Err? {
        return if moved.error.Conflict? then 409 else 500;
      }
      responses := responses + [Response(task, order.info.id, txHash)];
      code := 200;
    }

    /** The answer from the settle call on, by its cause; `later` is the state it is written to. */
    function SettleCode(id: string, settle: Env, later: Core): nat {
      if settle.settled.None? then AbortCode(later.orders, id, SettleFailure(settle))
      else if MovesWithHash(later.orders, id, Pending, settle.settled.value) then 200
      else if ConflictsWith(later.orders, id, Pending) then 409
      else 500
    }

    /** The answer to a proof, by its cause; `world` is the state the acceptance finds. */
    function LegacyCode(order: Order, tx: string, world: Core, settle: Env, later: Core): nat {
      var id := order.info.id;
      if order.status != Created then 409
      else if Crashes(order, tx) then 500
      else if Refutes(order, tx) then 400
      else if id !in world.orders then 500
      else if ConflictsWith(world.orders, id, Created) then 409
      else SettleCode(world.orders[id].info.id, settle, later)
    }

    method SubmitProof(orderId: string, tx: string, turns: seq<Turn>) returns (code: nat, txHash: string)
      requires |turns| == 3
      modifies this, db, db.table, tokens
      ensures orderId !in old(db.table.rows) <==> code == 404
      ensures code == 404 ==> Now() == old(Now())
      ensures orderId in old(db.table.rows) ==>
                && this.turns == turns && Ran(LegacyFetched(old(db.table.rows)[orderId], tx))
                && Succeeded() == if code == 200 then Some(txHash) else None
      ensures orderId in old(db.table.rows) ==>
                code == LegacyCode(old(db.table.rows)[orderId], tx, turns[0].world, turns[1].env, turns[2].world)
    {
      hide Step, OnTrack, Due, StepDone, Ran, Succeeded, Replies, Now, Proves, Crashes, ConflictsWith, SettleCode;
      if orderId !in db.table.rows {
        return 404, "";
      }
      var order := db.table.rows[orderId];
      Begin(LegacyFetched(order, tx), turns);
      var accepted, row := AcceptLegacy(order, tx);
      if accepted.Err? {
        Return();
        return accepted.error, "";
      }
      Await(LegacyPending(accepted.value, tx, row));
      code, txHash := SettleAndCommit(accepted.value, tx, row);
    }

    /** Steps 3 to 5. */
    method SettleAndCommit(order: Order, tx: string, ghost row: nat) returns (code: nat, txHash: string)
      requires Due(LegacyPending(order, tx, row)) && taken + 2 == |turns| && turn == turns[taken]
      modifies this, db, db.table, tokens
      ensures turns == old(turns) && Ran(old(start)) && code in {200, 409, 500, 502}
      ensures Succeeded() == if code == 200 then Some(txHash) else None
      ensures code == SettleCode(order.info.id, old(turns)[old(taken)].env, old(turns)[old(taken) + 1].world)
    {
      hide Step, OnTrack, Due, StepDone, Ran, Succeeded, Replies, Now, MovesWithHash, ConflictsWith, AbortCode, SettleFailure;
      var settled := SettleLegacy(order, tx, row);
      if settled.None? {
        var reason := SettleFailure(turn.env);
        Await(LegacyFailing(order, row, reason));
        code := AbortLegacy(order, row, reason);
        Return();
        return code, "";
      }
      txHash := settled.value;
      Await(LegacySettled(order, tx, row, txHash));
      code := CommitLegacy(order, tx, row, txHash);
      Return();
    }

    // ---------- POST /v1/protected/checkout/order ----------

    /** 1b-1f: challenge, payload check, status, expiry, replay. */
    method AdmitCheckout(order: Order, xPayment: Option<string>) returns (a: Admission)
      requires Due(CheckoutFetched(order, xPayment))
      ensures a.Fresh? ==> xPayment.Some?
      ensures xPayment == None ==> a == Refused(402)
      ensures StepDone(match a
                       case Refused(_) => Done
                       case Overdue => CheckoutExpiring(order)
                       case Fresh => CheckoutFresh(order, xPayment.value, turn.env.now))
      ensures Replies(Move(turn, Now()), task) == None && (a.Refused? ==> a.code in {402, 409})
      ensures a == Refused(402) <==> xPayment.None? || !turn.env.yes
      ensures a == Refused(409) <==>
                && xPayment.Some? && turn.env.yes
                && (order.status != Created
                    || (order.info.expiresAt >= turn.env.now
                        && exists k :: 0 <= k < |turn.world.proofs| && turn.world.proofs[k].hash == xPayment))
      ensures a.Overdue? <==> xPayment.Some? && turn.env.yes && order.status == Created && order.info.expiresAt < turn.env.now
    {
      hide OnTrack;
      if xPayment.None? || !turn.env.yes {
        return Refused(402);
      }
      if order.status != Created {
        return Refused(409);
      }
      if order.info.expiresAt < turn.env.now {
        return Overdue;
      }
      if HashSeen(db.proofs, xPayment.value) {
        return Refused(409);
      }
      a := Fresh;
    }

    /** 1e: created -> expired; a conflict is let pass. */
    method ExpireOrder(order: Order) returns (code: nat)
      requires Due(CheckoutExpiring(order))
      modifies db.table
      ensures StepDone(Done) && Replies(Move(turn, Now()), task) == None && code == if order.info.id in turn.world.orders then 410 else 500
      ensures var t, id := turn.world.orders, order.info.id;
              db.table.rows == if id in t && t[id].status == Created then t[id := t[id].(status := Expired)] else t
    {
      hide OnTrack;
      var moved := db.table.TransitionRow(order.info.id, Some(Created), Expired, NO_UPDATES);
      code := if moved.Err? && moved.error.NotFound? then 500 else 410;
    }

    /** 1g-1h: verify locally, and persist the verdict under the string's unique hash. */
    method PersistProof(order: Order, tx: string, admittedAt: int) returns (refused: Option<nat>, ghost row: nat)
      requires Due(CheckoutFresh(order, tx, admittedAt))
      modifies db
      ensures StepDone(if refused.None? then CheckoutPersisted(order, tx, row, admittedAt) else Done)
      ensures Replies(Move(turn, Now()), task) == None && (refused.Some? ==> refused.value in {402, 500})
      ensures refused == Some(500) <==> Crashes(order, tx) || HashSeen(turn.world.proofs, tx)
      ensures refused == Some(402) <==> Refutes(order, tx) && !HashSeen(turn.world.proofs, tx)
      ensures db.proofs == turn.world.proofs + if refused == Some(500) then [] else [ProofRow(order.info.id, tx, Some(tx), refused == None, task)]
    {
      hide P.VerifySpec, P.Accepts, OnTrack;
      row := |db.proofs|;
      var verdict := P.VerifyProof(cfg.chain, tx, ExpectationOf(cfg, order.info));
      if verdict == Err(P.IndexOutOfRange) {
        refused := Some(500);
        return;
      }
      var clash := db.InsertProofRow(ProofRow(order.info.id, tx, Some(tx), verdict.Ok?, task));
      if clash.Some? {
        refused := Some(500);
      } else if verdict.Err? {
        refused := Some(402);
      } else {
        refused := None;
      }
    }

    /** 1i: the facilitator's verify, then its settle. */
    method VerifyRemotely(order: Order, tx: string, ghost row: nat, admittedAt: int) returns (refused: Option<nat>)
      requires Due(CheckoutPersisted(order, tx, row, admittedAt))
      ensures StepDone(if refused.None? then CheckoutVerified(order, tx, row, admittedAt) else Done)
      ensures Replies(Move(turn, Now()), task) == None && (refused.Some? ==> refused.value in {402, 502})
      ensures refused == Some(502) <==> !turn.env.reached
      ensures refused == Some(402) <==> turn.env.reached && !turn.env.yes
    {
      hide OnTrack;
      if !turn.env.reached {
        return Some(502);
      }
      refused := if turn.env.yes then None else Some(402);
    }

    method SettleCheckout(order: Order, tx: string, ghost row: nat, admittedAt: int) returns (settled: Option<string>)
      requires Due(CheckoutVerified(order, tx, row, admittedAt))
      modifies `settles
      ensures settled == turn.env.settled
      ensures StepDone(if settled.Some? then CheckoutSettled(order, tx, row, settled.value) else Done)
      ensures Replies(Move(turn, Now()), task) == None
      ensures settles == turn.world.settles + [SettleCall(Checkout, task, order.info.id, tx, row, Some(admittedAt), settled)]
    {
      hide OnTrack;
      settled := turn.env.settled;
      settles := settles + [SettleCall(Checkout, task, order.info.id, tx, row, Some(admittedAt), settled)];
    }

    /** 1j-1k: the walk created -> pending -> broadcasting -> confirmed, and the answer. */
    method CommitOrder(order: Order, ghost tx: string, ghost row: nat, txHash: string) returns (code: nat)
      requires Due(CheckoutSettled(order, tx, row, txHash))
      modifies `responses, `takers, db.table
      ensures StepDone(Done)
      ensures Replies(Move(turn, Now()), task) == if code == 200 then Some(txHash) else None
      ensures code in {200, 409, 500}
      ensures code == 200 <==> MovesWithHash(turn.world.orders, order.info.id, Created, txHash)
      ensures code == 409 <==> ConflictsWith(turn.world.orders, order.info.id, Created)
      ensures var t, id := turn.world.orders, order.info.id;
              db.table.rows == if code != 200 then t
                               else t[id := t[id].(status := Confirmed, txHash := Some(txHash), confirmedAt := Some(turn.env.now))]
    {
      hide OnTrack, CommitCheckout, ProofFor, AcceptProof, InsertProof, HashSeen, L.FindRef, L.InsertCredit, Transition;
      CommitCheckoutOutcome(turn.world.orders, order.info.id, txHash, turn.env.now);
      CommitCheckoutErrors(turn.world.orders, order.info.id, txHash, turn.env.now);
      var walked := db.CommitCheckoutTx(order.info.id, txHash, turn.env.now);
      if walked.Err? {
        return if walked.error.Conflict? then 409 else 500;
      }
      takers := takers[order.info.id := Taker(task, row)];
      responses := responses + [Response(task, order.info.id, txHash)];
      code := 200;
    }

    /** The answer to a payment, by its cause: the verifier's crash or a used string, a refused proof, WEA out of reach, WEA
        against it, no transaction, and what the order has become meanwhile. */
    function PaymentCode(order: Order, tx: string, world: Core, verify: Env, settled: Option<string>, later: Core): nat {
      if Crashes(order, tx) || HashSeen(world.proofs, tx) then 500
      else if Refutes(order, tx) then 402
      else if !verify.reached then 502
      else if !verify.yes then 402
      else if settled.None? then 502
      else if MovesWithHash(later.orders, order.info.id, Created, settled.value) then 200
      else if ConflictsWith(later.orders, order.info.id, Created) then 409
      else 500
    }

    /** Which causes make a 402, a 502 and a 500. */
    lemma PaymentCodeByCause(order: Order, tx: string, world: Core, verify: Env, settled: Option<string>, later: Core)
      ensures var code := PaymentCode(order, tx, world, verify, settled, later);
              var used := exists k :: 0 <= k < |world.proofs| && world.proofs[k].hash == Some(tx);
              && code in {200, 402, 409, 500, 502}
              && (code == 402 <==> !used && (Refutes(order, tx) || (Proves(order, tx) && verify.reached && !verify.yes)))
              && (code == 502 <==> !used && Proves(order, tx) && (!verify.reached || (verify.yes && settled == None)))
              && (used || Crashes(order, tx) ==> code == 500)
              && (code == 200 ==> Proves(order, tx) && verify.reached && verify.yes && settled.Some?
                                  && MovesWithHash(later.orders, order.info.id, Created, settled.value))
    {
      hide P.VerifySpec, HashTaken;
    }

    /** Which causes make a 400, a 502 and a 200 on the legacy route. */
    lemma LegacyCodeByCause(order: Order, tx: string, world: Core, settle: Env, later: Core)
      ensures var code := LegacyCode(order, tx, world, settle, later); var id := order.info.id;
              && code in {200, 400, 409, 500, 502}
              && (code == 400 <==> order.status == Created && Refutes(order, tx))
              && (code == 502 ==> order.status == Created && Proves(order, tx) && settle.settled == None)
              && (code == 200 ==> order.status == Created && Proves(order, tx) && settle.settled.Some?
                                  && id in world.orders && world.orders[id].status == Created)
              && (order.status != Created ==> code == 409)
    {
      hide P.VerifySpec, HashTaken;
    }

    function CheckoutCode(order: Order, xPayment: Option<string>, turns: seq<Turn>): nat
      requires |turns| == 5
    {
      if xPayment.None? || !turns[0].env.yes then 402
      else if order.status != Created then 409
      else if order.info.expiresAt < turns[0].env.now then if order.info.id in turns[1].world.orders then 410 else 500
      else if HashSeen(turns[0].world.proofs, xPayment.value) then 409
      else PaymentCode(order, xPayment.value, turns[1].world, turns[2].env, turns[3].env.settled, turns[4].world)
    }

    /** The route after 1a. */
    method CheckOut(order: Order, xPayment: Option<string>, turns: seq<Turn>) returns (code: nat, txHash: string)
      requires |turns| == 5
      modifies this, db, db.table, tokens
      ensures this.turns == turns && Ran(CheckoutFetched(order, xPayment))
      ensures Succeeded() == if code == 200 then Some(txHash) else None
      ensures code == CheckoutCode(order, xPayment, turns)
      ensures xPayment == None ==> taken == 1
    {
      hide Step, OnTrack, Due, StepDone, Ran, Succeeded, Replies, Now, PaymentCode;
      txHash := "";
      Begin(CheckoutFetched(order, xPayment), turns);
      var a := AdmitCheckout(order, xPayment);
      if a.Refused? {
        Return();
        return a.code, "";
      }
      if a.Overdue? {
        Await(CheckoutExpiring(order));
        code := ExpireOrder(order);
        Return();
        return;
      }
      Await(CheckoutFresh(order, xPayment.value, turns[0].env.now));
      code, txHash := PayFor(order, xPayment.value, turns[0].env.now);
    }

    /** 1g-1k. */
    method PayFor(order: Order, tx: string, admittedAt: int) returns (code: nat, txHash: string)
      requires Due(CheckoutFresh(order, tx, admittedAt)) && taken + 4 == |turns| && turn == turns[taken]
      modifies this, db, db.table, tokens
      ensures turns == old(turns) && Ran(old(start))
      ensures Succeeded() == if code == 200 then Some(txHash) else None
      ensures var k := old(taken);
              code == PaymentCode(order, tx, old(turns)[k].world, old(turns)[k + 1].env, old(turns)[k + 2].env.settled, old(turns)[k + 3].world)
    {
      hide Step, OnTrack, Due, StepDone, Ran, Succeeded, Replies, Now, Crashes, Proves, Refutes, MovesWithHash, ConflictsWith, HashSeen;
      txHash := "";
      var refused, row := PersistProof(order, tx, admittedAt);
      if refused.Some? {
        Return();
        return refused.value, "";
      }
      Await(CheckoutPersisted(order, tx, row, admittedAt));
      refused := VerifyRemotely(order, tx, row, admittedAt);
      if refused.Some? {
        Return();
        return refused.value, "";
      }
      Await(CheckoutVerified(order, tx, row, admittedAt));
      var settled := SettleCheckout(order, tx, row, admittedAt);
      if settled.None? {
        Return();
        return 502, "";
      }
      txHash := settled.value;
      Await(CheckoutSettled(order, tx, row, txHash));
      code := CommitOrder(order, tx, row, txHash);
      Return();
    }

    /** The row 1a asks for: the console's merchant, key and settlement kind, and no webhook. */
    function ProtectedOrder(id: string, nonce: string, amount: nat, idemKey: string, expiresAt: int): OrderInfo {
      OrderInfo(id, PROTECTED_MERCHANT, PROTECTED_API_KEY, idemKey, amount, cfg.recipient, nonce, Some(MERCHANT_CHECKOUT), None, expiresAt)
    }

    /** 1a, then the rest.  The views are what the idempotent create may read, see OrderTable.CreatePayment. */
    method ProtectedCheckoutOrder(before: Table, after: Table, id: string, nonce: string, amount: nat, idemKey: string, expiresAt: int,
                                  xPayment: Option<string>, turns: seq<Turn>)
      returns (code: nat, txHash: string, ghost order: Option<Order>, ghost created: Table)
      requires TableOk(db.table.rows) && ViewOf(before, db.table.rows) && ViewOf(after, db.table.rows)
      requires amount > 0 && |turns| == 5
      modifies this, db, db.table, tokens
      ensures order.None? ==> code == 500 && Now() == old(Now())
      ensures order.Some? ==>
                && MayCreate(cfg, old(db.table.rows), OrderInfo(id, "haba", "ak_x402_protected", idemKey, amount, cfg.recipient, nonce,
                                                                Some("merchant_checkout"), None, expiresAt), order.value)
                && created == Insert(old(db.table.rows), order.value)
                && this.turns == turns && Ran(CheckoutFetched(order.value, xPayment))
                && Succeeded() == (if code == 200 then Some(txHash) else None)
                && code == CheckoutCode(order.value, xPayment, turns)
    {
      hide Step, OnTrack, Ran, Succeeded, TableOk, ViewOf, MayReturn, CheckoutCode;
      var made := db.table.CreatePayment(before, after, ProtectedOrder(id, nonce, amount, idemKey, expiresAt));
      created := db.table.rows;
      if made.Err? {
        return 500, "", None, created;
      }
      order := Some(made.value);
      code, txHash := CheckOut(made.value, xPayment, turns);
    }

    // ---------- the confirmer ----------

    method PollStatus(orderId: string, txHash: string) returns (s: Verdict)
      requires Due(Selected(orderId, txHash))
      ensures StepDone(match s
                       case Wait => Done
                       case OnChainFailure => Failing(orderId, txHash, turn.env.chain)
                       case OnChainSuccess => Confirming(orderId, txHash, turn.env.chain))
      ensures var wea := turn.env.chain;
              && (s == OnChainSuccess <==> turn.env.reached && wea.status in {"confirmed", "finalized"} && wea.err == None)
              && (s == OnChainFailure <==> turn.env.reached && wea.status != "pending" && (wea.status == "failed" || wea.err != None))
    {
      hide OnTrack;
      var answer := turn.env.chain;
      if !turn.env.reached || answer.status == "pending" {
        return Wait;
      }
      if answer.status == "failed" || answer.err.Some? {
        return OnChainFailure;
      }
      if answer.status != "confirmed" && answer.status != "finalized" {
        return Wait;
      }
      s := OnChainSuccess;
    }

    method FailOrder(orderId: string, txHash: string, answer: ChainAnswer) returns (failed: Option<Order>)
      requires Due(Failing(orderId, txHash, answer))
      modifies `closers, db.table
      ensures StepDone(if failed.Some? then Notifying(failed.value, PaymentFailed) else Done)
      ensures failed.Some? <==> orderId in turn.world.orders && turn.world.orders[orderId].status == Broadcasting
      ensures failed.Some? ==>
                var reason := if answer.err == None || answer.err == Some("") then "unknown" else Cut(answer.err.value, 200);
                failed.value == turn.world.orders[orderId].(status := Failed, reason := Some("on_chain_error: " + reason))
      ensures db.table.rows == if failed.Some? then turn.world.orders[orderId := failed.value] else turn.world.orders
    {
      hide OnTrack;
      var moved := db.table.TransitionRow(orderId, Some(Broadcasting), Failed, FailureNote(answer));
      if moved.Err? {
        return None;
      }
      closers := closers[orderId := Closer(task, txHash, answer)];
      failed := Some(moved.value);
    }

    method ConfirmOrder(orderId: string, txHash: string, answer: ChainAnswer) returns (confirmed: Option<Order>)
      requires Due(Confirming(orderId, txHash, answer))
      modifies `closers, db.table
      ensures StepDone(if confirmed.None? then Done
                       else var kind := confirmed.value.info.kind;
                         if kind == None || kind == Some("") || kind == Some("token_topup") then Crediting(confirmed.value)
                         else Notifying(confirmed.value, PaymentConfirmed))
      ensures confirmed.Some? <==> orderId in turn.world.orders && turn.world.orders[orderId].status == Broadcasting
      ensures confirmed.Some? ==>
                confirmed.value == turn.world.orders[orderId].(status := Confirmed, confirmedAt := Some(turn.env.now))
      ensures db.table.rows == if confirmed.Some? then turn.world.orders[orderId := confirmed.value] else turn.world.orders
    {
      hide OnTrack, ProofFor, AcceptProof, CommitCheckout, InsertProof, HashSeen, L.FindRef, L.InsertCredit;
      var moved := db.table.TransitionRow(orderId, Some(Broadcasting), Confirmed, NO_UPDATES.(confirmedAt := Some(turn.env.now)));
      if moved.Err? {
        return None;
      }
      closers := closers[orderId := Closer(task, txHash, answer)];
      confirmed := Some(moved.value);
      TopupKinds(moved.value.info);
      hide IsTopup;
    }

    /** The token service looks the order up; None when the request fails. */
    method LookUpCredit(order: Order) returns (found: Option<Option<L.Entry>>)
      requires Due(Crediting(order))
      ensures StepDone(if found.Some? then LookedUp(order, found.value) else Done)
      ensures found.Some? <==> turn.env.reached && turn.env.yes && order.info.amount > 0
      ensures var ledger := turn.world.ledger.entries;
              && (found == Some(None) ==>
                    forall k | 0 <= k < |ledger| :: ledger[k].source != L.X402Payment || ledger[k].sourceRef != Some(order.info.id))
              && (found.Some? && found.value.Some? ==>
                    found.value.value in ledger && found.value.value.source == L.X402Payment && found.value.value.sourceRef == Some(order.info.id))
    {
      hide OnTrack;
      if !turn.env.reached || !turn.env.yes || Tokens(order.info.amount) <= 0 {
        return None;
      }
      found := Some(L.FindRef(tokens.entries, L.X402Payment, order.info.id));
    }

    /** It locks the balance row and inserts, unless the lookup had found an entry; None when the database refuses. */
    method PostCredit(order: Order, found: Option<L.Entry>) returns (entryId: Option<nat>)
      requires Due(LookedUp(order, found))
      modifies tokens
      ensures StepDone(if entryId.Some? then Credited(order, entryId.value) else Done)
      ensures found.Some? ==> entryId == Some(found.value.id) && tokens.Value() == turn.world.ledger
      ensures var l, info := turn.world.ledger, order.info;
              found == None ==>
                if info.merchant !in l.balances && info.merchant !in l.merchants then entryId == None && tokens.Value() == l
                else
                  var balance := (if info.merchant in l.balances then l.balances[info.merchant].token else 0) + info.amount;
                  && entryId == Some(l.nextId) && tokens.nextId == l.nextId + 1 && tokens.merchants == l.merchants
                  && tokens.entries == l.entries + [L.Entry(l.nextId, info.merchant, L.Credit, info.amount, balance, L.X402Payment, Some(info.id))]
                  && tokens.balances == l.balances[info.merchant := L.Balance(balance, Some(l.nextId))]
    {
      hide OnTrack;
      if found.Some? {
        return Some(found.value.id);
      }
      var inserted := tokens.LockAndInsert(order.info.merchant, Tokens(order.info.amount), L.X402Payment, Some(order.info.id));
      entryId := if inserted.Ok? then Some(inserted.value.id) else None;
    }

    method MarkCredited(order: Order, entryId: nat) returns (final: Option<Order>)
      requires Due(Credited(order, entryId))
      modifies db.table
      ensures StepDone(if final.Some? then Notifying(final.value, PaymentTokenCredited) else Done)
      ensures var t, id := turn.world.orders, order.info.id;
              && (final.Some? <==> id in t && t[id].status == Confirmed)
              && (final.Some? ==> final.value == t[id].(status := TokenCredited, ledgerEntryId := Some(entryId)))
              && db.table.rows == if final.Some? then t[id := final.value] else t
    {
      hide OnTrack;
      var moved := db.table.TransitionRow(order.info.id, Some(Confirmed), TokenCredited, NO_UPDATES.(ledgerEntryId := Some(entryId)));
      final := if moved.Ok? then Some(moved.value) else None;
    }

    method EnqueueEvent(order: Order, kind: EventKind)
      requires Due(Notifying(order, kind))
      modifies `events
      ensures StepDone(Done)
      ensures var own := order.info.webhookUrl; var url := if own == None || own == Some("") then cfg.defaultUrl else own.value;
              events == turn.world.events + if url == "" then [] else [Event(order.info.id, kind, url)]
    {
      hide OnTrack;
      var url := WebhookUrl(cfg, order);
      if url == "" {
        return;
      }
      events := events + [Event(order.info.id, kind, url)];
    }

    method ConfirmerAdvanceOne(orderId: string, txHash: string, turns: seq<Turn>)
      requires |turns| == 6
      modifies this, db, db.table, tokens
      ensures this.turns == turns && Ran(Selected(orderId, txHash))
    {
      hide Step, OnTrack, Due, StepDone, Ran, Succeeded, Replies, Now, IsTopup;
      Begin(Selected(orderId, txHash), turns);
      var status := PollStatus(orderId, txHash);
      match status
      case Wait => Return();
      case OnChainFailure =>
        var answer := turns[0].env.chain;
        Await(Failing(orderId, txHash, answer));
        var failed := FailOrder(orderId, txHash, answer);
        if failed.Some? {
          Await(Notifying(failed.value, PaymentFailed));
          EnqueueEvent(failed.value, PaymentFailed);
        }
        Return();
      case OnChainSuccess =>
        var answer := turns[0].env.chain;
        Await(Confirming(orderId, txHash, answer));
        var confirmed := ConfirmOrder(orderId, txHash, answer);
        if confirmed.Some? { TopupKinds(confirmed.value.info); }
        if confirmed.None? {
          Return();
        } else if !IsTopup(confirmed.value.info) {
          Await(Notifying(confirmed.value, PaymentConfirmed));
          EnqueueEvent(confirmed.value, PaymentConfirmed);
          Return();
        } else {
          Await(Crediting(confirmed.value));
          CreditOrder(confirmed.value);
        }
    }

    /** The credit call and what follows it.  A confirmer that stops waiting is this run cut short; its request goes on as
        `LoseReply` has it. */
    method CreditOrder(order: Order)
      requires Due(Crediting(order)) && taken + 4 == |turns|
      modifies this, db, db.table, tokens
      ensures turns == old(turns) && Ran(old(start))
    {
      hide Step, OnTrack, Due, StepDone, Ran, Succeeded, Replies, Now;
      var found := LookUpCredit(order);
      if found.None? {
        Return();
        return;
      }
      Await(LookedUp(order, found.value));
      var entryId := PostCredit(order, found.value);
      if entryId.None? {
        Return();
        return;
      }
      Await(Credited(order, entryId.value));
      var final := MarkCredited(order, entryId.value);
      if final.Some? {
        Await(Notifying(final.value, PaymentTokenCredited));
        EnqueueEvent(final.value, PaymentTokenCredited);
      }
      Return();
    }
  }

  // ---------- a handler's run is a run of the pipeline ----------

  /** What the other tasks do before each move, and the moves. */
  ghost function Interleaved(others: seq<seq<Action>>, t: nat, moves: seq<Move>): seq<Action>
    requires |others| == |moves|
    decreases |moves|
  {
    if moves == [] then []
    else
      var n := |moves| - 1;
      Interleaved(others[..n], t, moves[..n]) + others[n] + [Run(t, moves[n].turn.env)]
  }

  /** Each await returned to the state the other tasks had made of the one the handler left. */
  ghost predicate WorldsAreReal(cfg: Config, s: System, t: nat, others: seq<seq<Action>>, moves: seq<Move>)
    requires |others| == |moves|
  {
    forall k | 0 <= k < |moves| ::
      && (forall a <- others[k] :: T.OtherTask(a, t))
      && moves[k].turn.world == Execute(cfg, s, Interleaved(others[..k], t, moves[..k]) + others[k]).core
  }

  /** The handler's moves, among whatever the other tasks do, are the pipeline's own steps: the state it leaves
      is the pipeline's state, and its place is the task's. */
  lemma {:induction false} HandlerRunIsPipelineRun(cfg: Config, s: System, t: nat, others: seq<seq<Action>>, moves: seq<Move>)
    requires t in s.tasks && |others| == |moves|
    requires Follows(cfg, t, s.tasks[t], moves) && WorldsAreReal(cfg, s, t, others, moves)
    ensures var s' := Execute(cfg, s, Interleaved(others, t, moves));
            && t in s'.tasks && s'.tasks[t] == PcAfter(cfg, t, s.tasks[t], moves)
            && s'.core == if moves == [] then s.core else moves[|moves| - 1].after
    decreases |moves|
  {
    hide Step, Next;
    if moves != [] {
      var n := |moves| - 1;
      EarlierMoves(cfg, s, t, others, moves, n);
      HandlerRunIsPipelineRun(cfg, s, t, others[..n], moves[..n]);
      var before := Interleaved(others[..n], t, moves[..n]);
      T.ExecuteSplits(cfg, s, before, others[n]);
      forall k | 0 <= k < |others[n]| ensures T.OtherTask(others[n][k], t) { assert others[n][k] in others[n]; }
      T.OthersLeaveTask(cfg, Execute(cfg, s, before), others[n], t);
      LastMove(cfg, s, t, before + others[n], moves[n].turn.env);
      assert moves[..n] == moves[..|moves| - 1];
    }
  }

  lemma EarlierMoves(cfg: Config, s: System, t: nat, others: seq<seq<Action>>, moves: seq<Move>, n: nat)
    requires |others| == |moves| && n <= |moves| && t in s.tasks
    requires Follows(cfg, t, s.tasks[t], moves) && WorldsAreReal(cfg, s, t, others, moves)
    ensures Follows(cfg, t, s.tasks[t], moves[..n]) && WorldsAreReal(cfg, s, t, others[..n], moves[..n])
  {
    hide Step, Execute, Interleaved, T.OtherTask, PcAfter;
    forall k | 0 <= k < n ensures moves[..n][..k] == moves[..k] && others[..n][..k] == others[..k] {}
  }

  lemma LastMove(cfg: Config, s: System, t: nat, before: seq<Action>, env: Env)
    requires t in Execute(cfg, s, before).tasks
    ensures var b := Execute(cfg, s, before);
            var a := Execute(cfg, s, before + [Run(t, env)]);
            t in a.tasks && (a.core, a.tasks[t]) == Step(cfg, b.core, t, b.tasks[t], env)
  {
    hide Step;
    var all := before + [Run(t, env)];
    assert all[..|all| - 1] == before;
  }

  // ---------- what the theorems say of the handlers ----------

  /** A handler's run in a run of the system: what came before it, what the other tasks did between its moves, and what
      came after. */
  datatype HandlerRun = HandlerRun(started: seq<Action>, task: nat, others: seq<seq<Action>>, moves: seq<Move>, later: seq<Action>)

  ghost predicate RunsWithin(cfg: Config, s: System, actions: seq<Action>, r: HandlerRun) {
    && |r.others| == |r.moves| > 0
    && actions == r.started + Interleaved(r.others, r.task, r.moves) + r.later
    && var s1 := Execute(cfg, s, r.started);
       && r.task in s1.tasks && Follows(cfg, r.task, s1.tasks[r.task], r.moves)
       && WorldsAreReal(cfg, s1, r.task, r.others, r.moves)
  }

  /** The order a task is about. */
  function OrderOf(pc: Pc): Option<string> {
    match pc
    case Done => None
    case Selected(id, _) => Some(id)
    case Failing(id, _, _) => Some(id)
    case Confirming(id, _, _) => Some(id)
    case _ => Some(pc.order.info.id)
  }

  /** The order the request was for: the one in the copy the handler started from. */
  ghost function OrderAsked(cfg: Config, s: System, r: HandlerRun): Option<string>
    requires r.task in Execute(cfg, s, r.started).tasks
  {
    OrderOf(Execute(cfg, s, r.started).tasks[r.task])
  }

  lemma TransitionKeepsId(t: Table, id: string, from: Option<Status>, to: Status, u: Updates)
    requires TableOk(t) && Transition(t, id, from, to, u).Ok?
    ensures id in Transition(t, id, from, to, u).value && Transition(t, id, from, to, u).value[id].info.id == id
  {
  }

  lemma AcceptKeepsId(t: Table, proofs: seq<ProofRow>, row: ProofRow)
    requires TableOk(t) && AcceptProof(Store(t, proofs), row).Ok?
    ensures var orders := AcceptProof(Store(t, proofs), row).value.orders; row.orderId in orders && orders[row.orderId].info.id == row.orderId
  {
  }

  lemma StepKeepsOrder(cfg: Config, c: Core, t: nat, pc: Pc, env: Env)
    requires TableOk(c.orders)
    ensures var pc' := Step(cfg, c, t, pc, env).1; pc' == Done || OrderOf(pc') == OrderOf(pc)
  {
    hide TableOk, Transition, AcceptProof, CommitCheckout, InsertProof, ProofFor, L.FindRef, L.InsertCredit, HashSeen, FailureNote;
    var id := if pc == Done then "" else OrderOf(pc).value;
    match pc
    case LegacyFetched(o, tx) =>
      if AcceptProof(Store(c.orders, c.proofs), ProofRow(id, tx, None, true, t)).Ok? {
        AcceptKeepsId(c.orders, c.proofs, ProofRow(id, tx, None, true, t));
      }
    case Failing(_, _, answer) =>
      if Transition(c.orders, id, Some(Broadcasting), Failed, FailureNote(answer)).Ok? {
        TransitionKeepsId(c.orders, id, Some(Broadcasting), Failed, FailureNote(answer));
      }
    case Confirming(_, _, _) =>
      var u := NO_UPDATES.(confirmedAt := Some(env.now));
      if Transition(c.orders, id, Some(Broadcasting), Confirmed, u).Ok? {
        TransitionKeepsId(c.orders, id, Some(Broadcasting), Confirmed, u);
      }
    case Credited(_, entryId) =>
      var u := NO_UPDATES.(ledgerEntryId := Some(entryId));
      if Transition(c.orders, id, Some(Confirmed), TokenCredited, u).Ok? {
        TransitionKeepsId(c.orders, id, Some(Confirmed), TokenCredited, u);
      }
    case _ =>
  }

  lemma {:induction false} TaskKeepsOrder(cfg: Config, s: System, actions: seq<Action>, more: seq<Action>, t: nat)
    requires Initial(s) && t in Execute(cfg, s, actions).tasks
    ensures var now, end := Execute(cfg, s, actions), Execute(cfg, s, actions + more);
            t in end.tasks && (end.tasks[t] == Done || OrderOf(end.tasks[t]) == OrderOf(now.tasks[t]))
    decreases |more|
  {
    hide Next;
    if more == [] {
      assert actions + more == actions;
    } else {
      var all, n := actions + more, |more| - 1;
      TaskKeepsOrder(cfg, s, actions, more[..n], t);
      assert all[..|all| - 1] == actions + more[..n];
      ActionKeepsOrder(cfg, s, actions + more[..n], more[n], t);
    }
  }

  lemma ActionKeepsOrder(cfg: Config, s: System, actions: seq<Action>, a: Action, t: nat)
    requires Initial(s) && t in Execute(cfg, s, actions).tasks
    ensures var now := Execute(cfg, s, actions); var end := Next(cfg, now, a);
            t in end.tasks && (end.tasks[t] == Done || end.tasks[t] == now.tasks[t] || OrderOf(end.tasks[t]) == OrderOf(now.tasks[t]))
  {
    var now := Execute(cfg, s, actions);
    T.ReachableTable(cfg, s, actions);
    hide Execute, Initial, Step, MayCreate, TableOk, OrderOf;
    if a.Run? && a.task == t {
      T.RunIsStep(cfg, now, t, a.env);
      StepKeepsOrder(cfg, now.core, t, now.tasks[t], a.env);
    }
  }

  /** Each move is a step taken in the system's run, in the state the run had reached. */
  lemma {:induction false} MoveIsReached(cfg: Config, s: System, t: nat, others: seq<seq<Action>>, moves: seq<Move>, j: nat)
    returns (before: seq<Action>, after: seq<Action>)
    requires t in s.tasks && |others| == |moves| && j < |moves|
    requires Follows(cfg, t, s.tasks[t], moves) && WorldsAreReal(cfg, s, t, others, moves)
    ensures Interleaved(others, t, moves) == before + [Run(t, moves[j].turn.env)] + after
    ensures Execute(cfg, s, before).core == moves[j].turn.world
    ensures Execute(cfg, s, before + [Run(t, moves[j].turn.env)]).core == moves[j].after
    decreases |moves|
  {
    hide Step, Next, Execute, Follows, WorldsAreReal;
    var n := |moves| - 1;
    if j == n {
      before, after := Interleaved(others[..n], t, moves[..n]) + others[n], [];
      HandlerRunIsPipelineRun(cfg, s, t, others, moves);
      WorldAt(cfg, s, t, others, moves, n);
      assert Interleaved(others, t, moves) == before + [Run(t, moves[n].turn.env)] + [];
    } else {
      EarlierMoves(cfg, s, t, others, moves, n);
      before, after := MoveIsReached(cfg, s, t, others[..n], moves[..n], j);
      var last := others[n] + [Run(t, moves[n].turn.env)];
      assert Interleaved(others, t, moves) == before + [Run(t, moves[j].turn.env)] + (after + last);
      after := after + last;
    }
  }

  lemma WorldAt(cfg: Config, s: System, t: nat, others: seq<seq<Action>>, moves: seq<Move>, k: nat)
    requires |others| == |moves| && k < |moves| && WorldsAreReal(cfg, s, t, others, moves)
    ensures moves[k].turn.world == Execute(cfg, s, Interleaved(others[..k], t, moves[..k]) + others[k]).core
  {
  }

  /** Where move j of a handler lies in the run of the whole system. */
  lemma MoveWithin(cfg: Config, s: System, actions: seq<Action>, r: HandlerRun, j: nat)
    returns (before: seq<Action>, after: seq<Action>)
    requires RunsWithin(cfg, s, actions, r) && j < |r.moves|
    ensures actions == before + [Run(r.task, r.moves[j].turn.env)] + after && r.started <= before
    ensures Execute(cfg, s, before).core == r.moves[j].turn.world
    ensures Execute(cfg, s, before + [Run(r.task, r.moves[j].turn.env)]).core == r.moves[j].after
  {
    hide Execute, Follows, WorldsAreReal, Interleaved;
    var s1, run := Execute(cfg, s, r.started), [Run(r.task, r.moves[j].turn.env)];
    var b, a := MoveIsReached(cfg, s1, r.task, r.others, r.moves, j);
    T.ExecuteSplits(cfg, s, r.started, b);
    T.ExecuteSplits(cfg, s, r.started, b + run);
    before, after := r.started + b, a + r.later;
    assert r.started + (b + run) == before + run;
    assert actions == before + run + after;
  }

  /** The response a step adds is for the task's own order, and the call it records is the task's. */
  lemma StepRecords(cfg: Config, c: Core, t: nat, pc: Pc, env: Env)
    ensures var c' := Step(cfg, c, t, pc, env).0;
            && (|c'.responses| > |c.responses| ==>
                  && OrderOf(pc).Some? && |c'.responses| == |c.responses| + 1
                  && c'.responses[|c.responses|].task == t && Some(c'.responses[|c.responses|].orderId) == OrderOf(pc))
            && (|c'.settles| > |c.settles| ==> |c'.settles| == |c.settles| + 1 && c'.settles[|c.settles|].task == t)
  {
    hide Transition, CommitCheckout, AcceptProof, InsertProof, ProofFor, L.FindRef, L.InsertCredit, HashSeen;
  }

  /** A move is a step of the handler's task, still about the order the request was for; what it records stays. */
  lemma MoveIsStep(cfg: Config, s: System, actions: seq<Action>, r: HandlerRun, j: nat) returns (pc: Pc)
    requires Initial(s) && RunsWithin(cfg, s, actions, r) && j < |r.moves|
    ensures var m, end := r.moves[j], Execute(cfg, s, actions).core;
            && m.after == Step(cfg, m.turn.world, r.task, pc, m.turn.env).0
            && (pc == Done || OrderOf(pc) == OrderAsked(cfg, s, r))
            && m.turn.world.responses <= m.after.responses <= end.responses && m.after.settles <= end.settles
  {
    hide Step, Next, OrderOf, Interleaved, Follows, WorldsAreReal, Initial;
    var before, after := MoveWithin(cfg, s, actions, r, j);
    var run := Run(r.task, r.moves[j].turn.env);
    var since := before[|r.started|..];
    assert r.started + since == before;
    TaskKeepsOrder(cfg, s, r.started, since, r.task);
    LastMove(cfg, s, r.task, before, run.env);
    T.ExecuteSplits(cfg, s, before + [run], after);
    hide Execute;
    pc := Execute(cfg, s, before).tasks[r.task];
    T.ExecuteAppends(cfg, Execute(cfg, s, before + [run]), after);
    T.StepAppends(cfg, r.moves[j].turn.world, r.task, pc, run.env);
  }

  /** A handler that answers 200 has answered for the order the request was for. */
  lemma ReplyIsForTheOrderAsked(cfg: Config, s: System, actions: seq<Action>, r: HandlerRun, j: nat)
    requires Initial(s) && RunsWithin(cfg, s, actions, r) && j < |r.moves| && Replies(r.moves[j], r.task).Some?
    ensures var was, now := r.moves[j].turn.world.responses, r.moves[j].after.responses;
            && OrderAsked(cfg, s, r).Some?
            && now == was + [Response(r.task, OrderAsked(cfg, s, r).value, Replies(r.moves[j], r.task).value)]
    ensures r.moves[j].after.responses <= Execute(cfg, s, actions).core.responses
  {
    hide Step, Execute, RunsWithin, Initial, OrderAsked, OrderOf;
    var pc := MoveIsStep(cfg, s, actions, r, j);
    StepRecords(cfg, r.moves[j].turn.world, r.task, pc, r.moves[j].turn.env);
    var was, now := r.moves[j].turn.world.responses, r.moves[j].after.responses;
    DoneHasNoOrder(pc);
    assert now == was + [now[|was|]];
  }

  lemma DoneHasNoOrder(pc: Pc)
    ensures pc == Done ==> OrderOf(pc) == None
  {
  }

  /** What a handler answered with 200 is, from then on and in every later state of the system, the hash on the order
      the request was for. */
  lemma {:induction false} AnsweredHashStays(cfg: Config, s: System, actions: seq<Action>, r: HandlerRun, j: nat)
    requires Initial(s) && RunsWithin(cfg, s, actions, r) && j < |r.moves| && Replies(r.moves[j], r.task).Some?
    ensures var end := Execute(cfg, s, actions).core;
            && OrderAsked(cfg, s, r).Some? && OrderAsked(cfg, s, r).value in end.orders
            && end.orders[OrderAsked(cfg, s, r).value].txHash == Replies(r.moves[j], r.task)
  {
    hide Execute, RunsWithin, OrderOf;
    ReplyIsForTheOrderAsked(cfg, s, actions, r, j);
    T.OneSuccessPerOrder(cfg, s, actions, []);
    assert actions + [] == actions;
    var end, n := Execute(cfg, s, actions).core, |r.moves[j].turn.world.responses|;
    assert end.responses[n] == r.moves[j].after.responses[n];
  }

  /** Two handlers never both answer 200 for one order, on whichever routes and however interleaved. */
  lemma {:induction false} HandlersAnswerAnOrderOnce(cfg: Config, s: System, actions: seq<Action>, a: HandlerRun, j: nat, b: HandlerRun, k: nat)
    requires Initial(s) && RunsWithin(cfg, s, actions, a) && RunsWithin(cfg, s, actions, b) && a.task != b.task
    requires j < |a.moves| && Replies(a.moves[j], a.task).Some?
    requires k < |b.moves| && Replies(b.moves[k], b.task).Some?
    ensures OrderAsked(cfg, s, a) != OrderAsked(cfg, s, b)
  {
    hide Execute, RunsWithin, OrderOf;
    ReplyIsForTheOrderAsked(cfg, s, actions, a, j);
    ReplyIsForTheOrderAsked(cfg, s, actions, b, k);
    T.OneSuccessPerOrder(cfg, s, actions, []);
    assert actions + [] == actions;
    var end := Execute(cfg, s, actions).core.responses;
    var m, n := |a.moves[j].turn.world.responses|, |b.moves[k].turn.world.responses|;
    assert end[m] == a.moves[j].after.responses[m] && end[n] == b.moves[k].after.responses[n];
    assert end[m].task == a.task && end[n].task == b.task;
  }

  /** The settle call a move makes. */
  ghost function Settles(m: Move): Option<SettleCall> {
    var was, now := m.turn.world.settles, m.after.settles;
    if |was| < |now| then Some(now[|now| - 1]) else None
  }

  lemma SettleIsRecorded(cfg: Config, s: System, actions: seq<Action>, r: HandlerRun, j: nat) returns (at: nat)
    requires Initial(s) && RunsWithin(cfg, s, actions, r) && j < |r.moves| && Settles(r.moves[j]).Some?
    ensures var end := Execute(cfg, s, actions).core.settles;
            at < |end| && Some(end[at]) == Settles(r.moves[j]) && end[at].task == r.task
  {
    hide Step, Execute, RunsWithin, Initial, OrderAsked, OrderOf;
    var pc := MoveIsStep(cfg, s, actions, r, j);
    StepRecords(cfg, r.moves[j].turn.world, r.task, pc, r.moves[j].turn.env);
    at := |r.moves[j].turn.world.settles|;
  }

  /** Two handlers never hand one signed string to settle on one route, nor settle one order twice on the /proof route, and
      settle one string on both only for one order. */
  lemma {:induction false} HandlersSettleOnce(cfg: Config, s: System, actions: seq<Action>, a: HandlerRun, j: nat, b: HandlerRun, k: nat)
    requires Initial(s) && RunsWithin(cfg, s, actions, a) && RunsWithin(cfg, s, actions, b) && a.task != b.task
    requires j < |a.moves| && Settles(a.moves[j]).Some? && k < |b.moves| && Settles(b.moves[k]).Some?
    ensures T.SettledApart(Settles(a.moves[j]).value, Settles(b.moves[k]).value)
  {
    hide Execute, RunsWithin, Settles, Initial, T.SettledApart, T.RightlySettled;
    var m := SettleIsRecorded(cfg, s, actions, a, j);
    var n := SettleIsRecorded(cfg, s, actions, b, k);
    T.SettledOnce(cfg, s, actions);
    BothWaysApart(Execute(cfg, s, actions).core.settles, m, n);
  }

  lemma BothWaysApart(calls: seq<SettleCall>, m: nat, n: nat)
    requires m < |calls| && n < |calls| && m != n
    requires forall j, k | 0 <= j < k < |calls| :: T.SettledApart(calls[j], calls[k])
    ensures T.SettledApart(calls[m], calls[n])
  {
    if n < m { assert T.SettledApart(calls[n], calls[m]); }
  }
}
