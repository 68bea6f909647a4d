/** Which pending orders can still leave `pending`: only the /proof request that took the order moves it on. */
module PendingOrders {
  import opened Wrappers
  import opened Orders
  import opened Gateway
  import opened Pipeline
  import opened PipelineInvariant
  import PipelineSteps
  import T = PipelineTheorems
  import L = Ledger

  predicate IsPending(c: Core, id: string) {
    id in c.orders && c.orders[id].status == Pending
  }

  // ---------- where the task that took an order stands ----------

  /** Between taking the order and moving it on, or gone. */
  predicate StandsAt(pc: Pc, id: string) {
    match pc
    case Done => true
    case LegacyPending(o, _, _) => o.info.id == id
    case LegacyFailing(o, _, _) => o.info.id == id
    case LegacySettled(o, _, _, _) => o.info.id == id
    case _ => false
  }

  ghost predicate TakerStands(s: System, id: string)
    requires id in s.core.takers
  {
    var t := s.core.takers[id].task;
    t in s.tasks && (IsPending(s.core, id) ==> StandsAt(s.tasks[t], id))
  }

  ghost predicate TakersStand(s: System) {
    forall id | id in s.core.takers :: TakerStands(s, id)
  }

  lemma OnlyTakersTake(cfg: Config, c: Core, t: nat, pc: Pc, env: Env)
    requires !pc.LegacyFetched? && !pc.CheckoutSettled?
    ensures Step(cfg, c, t, pc, env).0.takers == c.takers
  {
    hide Transition, CommitCheckout, AcceptProof, InsertProof, ProofFor, L.FindRef, L.InsertCredit, HashSeen;
  }

  lemma TakesWhatItMoves(cfg: Config, c: Core, t: nat, pc: Pc, env: Env, id: string)
    requires TableOk(c.orders) && (pc.LegacyFetched? || pc.CheckoutSettled?)
    requires id !in c.takers && id in Step(cfg, c, t, pc, env).0.takers
    ensures var (c', pc') := Step(cfg, c, t, pc, env);
            c'.takers[id].task == t && (IsPending(c', id) ==> StandsAt(pc', id))
  {
    var o := pc.order;
    AcceptProofOutcome(Store(c.orders, c.proofs), ProofRow(o.info.id, if pc.LegacyFetched? then pc.tx else "", None, true, t));
    if pc.CheckoutSettled? { CommitCheckoutOutcome(c.orders, o.info.id, pc.txHash, env.now); }
    assert id in c.orders ==> c.orders[id].info.id == id;
    hide TableOk, AcceptProof, CommitCheckout, ProofFor;
  }

  /** A step takes at most the order it acts on, which is then pending with this task, or confirmed. */
  lemma StepTakes(cfg: Config, c: Core, t: nat, pc: Pc, env: Env, id: string)
    requires CoreOk(cfg, c) && id !in c.takers && id in Step(cfg, c, t, pc, env).0.takers
    ensures var (c', pc') := Step(cfg, c, t, pc, env);
            && (forall i :: !StandsAt(pc, i))
            && c'.takers[id].task == t && (IsPending(c', id) ==> StandsAt(pc', id))
  {
    assert TableOk(c.orders);
    hide CoreOk, Step, IsPending, TableOk;
    if pc.LegacyFetched? || pc.CheckoutSettled? { TakesWhatItMoves(cfg, c, t, pc, env, id); } else { OnlyTakersTake(cfg, c, t, pc, env); }
  }

  lemma TakerMovesOn(cfg: Config, c: Core, t: nat, pc: Pc, env: Env, id: string)
    requires StandsAt(pc, id) && IsPending(c, id)
    ensures IsPending(Step(cfg, c, t, pc, env).0, id) ==> StandsAt(Step(cfg, c, t, pc, env).1, id)
  {
  }

  lemma TakenFacts(cfg: Config, c: Core, id: string)
    requires CoreOk(cfg, c) && id in c.takers
    ensures id in c.orders && c.orders[id].status != Created
    ensures c.orders[id].status == Pending ==> c.orders[id].txHash == None
    ensures c.orders[id].status == Broadcasting || c.orders[id].status == Confirmed ==> c.orders[id].txHash.Some?
  {
    assert id in c.orders && OrderOk(cfg, c, id);
  }

  /** A taken order that is pending after a step was pending before: nothing goes back to `pending`. */
  lemma StillPending(cfg: Config, c: Core, c': Core, t: nat, id: string)
    requires CoreOk(cfg, c) && CoreOk(cfg, c') && Guarantee(c, c', t) && id in c.takers && IsPending(c', id)
    ensures IsPending(c, id)
  {
    hide CoreOk;
    TakersKept(c, c', t, id);
    TakenFacts(cfg, c, id);
    TakenFacts(cfg, c', id);
    assert OrderStable(c, c', t, id);
  }

  lemma TakersKept(c: Core, c': Core, t: nat, id: string)
    requires Guarantee(c, c', t) && id in c.takers
    ensures id in c'.takers && c'.takers[id] == c.takers[id]
  {
  }

  lemma RunKeepsTakers(cfg: Config, s: System, t: nat, env: Env)
    requires Inv(cfg, s) && TakersStand(s) && t in s.tasks
    ensures TakersStand(Next(cfg, s, Run(t, env)))
  {
    hide CoreOk, Guarantee, TaskOk, Step, IsPending, StandsAt;
    var s' := Next(cfg, s, Run(t, env));
    PipelineSteps.StepKeeps(cfg, s.core, t, s.tasks[t], env);
    T.RunIsStep(cfg, s, t, env);
    forall id | id in s'.core.takers ensures TakerStands(s', id) {
      if id in s.core.takers {
        assert TakerStands(s, id);
        TakersKept(s.core, s'.core, t, id);
        if IsPending(s'.core, id) { StillPending(cfg, s.core, s'.core, t, id); }
        if s.core.takers[id].task == t && IsPending(s.core, id) { TakerMovesOn(cfg, s.core, t, s.tasks[t], env, id); }
      } else {
        StepTakes(cfg, s.core, t, s.tasks[t], env, id);
      }
    }
  }

  /** What an action that is no task's step leaves alone. */
  lemma OutsideTasks(cfg: Config, s: System, a: Action, id: string)
    requires !(a.Run? && a.task in s.tasks) && id in s.core.orders
    ensures var s' := Next(cfg, s, a);
            && id in s'.core.orders && s'.core.orders[id] == s.core.orders[id] && s'.core.takers == s.core.takers
            && forall t | t in s.tasks :: t in s'.tasks && (StandsAt(s.tasks[t], id) ==> StandsAt(s'.tasks[t], id))
  {
    hide MayCreate, L.DebitSpec, Step;
  }

  lemma TakersUntouched(cfg: Config, s: System, a: Action)
    requires !(a.Run? && a.task in s.tasks)
    ensures Next(cfg, s, a).core.takers == s.core.takers
  {
    hide MayCreate, L.DebitSpec, Step;
  }

  lemma TakenOrderExists(cfg: Config, c: Core, id: string)
    requires CoreOk(cfg, c) && id in c.takers
    ensures id in c.orders
  {
  }

  lemma NextKeepsTakers(cfg: Config, s: System, a: Action)
    requires Inv(cfg, s) && TakersStand(s)
    ensures TakersStand(Next(cfg, s, a))
  {
    if a.Run? && a.task in s.tasks {
      RunKeepsTakers(cfg, s, a.task, a.env);
    } else {
      hide CoreOk, TaskOk, Next;
      var s' := Next(cfg, s, a);
      forall id | id in s'.core.takers ensures TakerStands(s', id) {
        TakersUntouched(cfg, s, a);
        assert TakerStands(s, id);
        TakenOrderExists(cfg, s.core, id);
        OutsideTasks(cfg, s, a, id);
      }
    }
  }

  lemma {:induction false} ReachableTakers(cfg: Config, s: System, actions: seq<Action>)
    requires Initial(s)
    ensures Inv(cfg, Execute(cfg, s, actions)) && TakersStand(Execute(cfg, s, actions))
    decreases |actions|
  {
    hide Next, Inv;
    PipelineSteps.ReachableInv(cfg, s, actions);
    if actions != [] {
      var before := actions[..|actions| - 1];
      ReachableTakers(cfg, s, before);
      NextKeepsTakers(cfg, Execute(cfg, s, before), actions[|actions| - 1]);
    }
  }

  // ---------- who can move the order on ----------

  /** The request waits for WEA, or holds an answer the database will take. */
  ghost predicate CanMove(c: Core, pc: Pc, id: string) {
    match pc
    case LegacyPending(_, _, _) => true
    case LegacyFailing(_, _, reason) => |reason| <= REASON_WIDTH
    case LegacySettled(_, _, _, txHash) => |txHash| <= TX_HASH_WIDTH && !HashTaken(c.orders, id, txHash)
    case _ => false
  }

  /** The request that took the order is at work and can move it on. */
  ghost predicate Held(s: System, id: string) {
    id in s.core.takers && s.core.takers[id].task in s.tasks && CanMove(s.core, s.tasks[s.core.takers[id].task], id)
  }

  /** Pending, and the request that took it gone or stopped by the database. */
  ghost predicate Stranded(s: System, id: string) {
    && IsPending(s.core, id) && id in s.core.takers && s.core.takers[id].task in s.tasks
    && StandsAt(s.tasks[s.core.takers[id].task], id) && !Held(s, id)
  }

  lemma TakenHashStays(c: Core, c': Core, t: nat, id: string, txHash: string)
    requires Guarantee(c, c', t) && HashTaken(c.orders, id, txHash)
    ensures HashTaken(c'.orders, id, txHash)
  {
    var o :| o in c.orders && o != id && c.orders[o].txHash == Some(txHash);
    assert OrderStable(c, c', t, o);
    assert o in c'.orders && c'.orders[o].txHash == Some(txHash);
  }

  /** The database stops it. */
  lemma StoppedStep(cfg: Config, c: Core, t: nat, pc: Pc, env: Env, id: string)
    requires IsPending(c, id) && StandsAt(pc, id) && !CanMove(c, pc, id)
    ensures Step(cfg, c, t, pc, env) == (c, Done)
  {
  }

  /** Another task's step leaves the order and what stops its taker alone. */
  lemma OthersStep(cfg: Config, c: Core, t: nat, pc: Pc, env: Env, id: string, taker: Pc)
    requires CoreOk(cfg, c) && TaskOk(c, t, pc) && IsPending(c, id) && id in c.takers && c.takers[id].task != t
    requires !CanMove(c, taker, id)
    ensures var c' := Step(cfg, c, t, pc, env).0;
            IsPending(c', id) && id in c'.takers && c'.takers[id] == c.takers[id] && !CanMove(c', taker, id)
  {
    hide CoreOk, TaskOk, Step, HashTaken;
    var c' := Step(cfg, c, t, pc, env).0;
    PipelineSteps.StepKeeps(cfg, c, t, pc, env);
    assert OrderStable(c, c', t, id);
    if taker.LegacySettled? && HashTaken(c.orders, id, taker.txHash) { TakenHashStays(c, c', t, id, taker.txHash); }
  }

  lemma RunLeavesStranded(cfg: Config, s: System, t: nat, env: Env, id: string)
    requires Inv(cfg, s) && Stranded(s, id) && t in s.tasks
    ensures Stranded(Next(cfg, s, Run(t, env)), id)
  {
    hide CoreOk, TaskOk, Step, IsPending, CanMove;
    T.RunIsStep(cfg, s, t, env);
    var taker := s.core.takers[id].task;
    if taker == t {
      StoppedStep(cfg, s.core, t, s.tasks[t], env, id);
      DoneCannotMove(s.core, id);
    } else {
      OthersStep(cfg, s.core, t, s.tasks[t], env, id, s.tasks[taker]);
    }
  }

  lemma DoneCannotMove(c: Core, id: string)
    ensures !CanMove(c, Done, id)
  {
  }

  lemma MoreOrdersSameStop(cfg: Config, s: System, a: Action, id: string, pc: Pc)
    requires !(a.Run? && a.task in s.tasks) && !CanMove(s.core, pc, id)
    ensures !CanMove(Next(cfg, s, a).core, pc, id)
  {
    var c' := Next(cfg, s, a).core;
    if pc.LegacySettled? && HashTaken(s.core.orders, id, pc.txHash) {
      var o :| o in s.core.orders && o != id && s.core.orders[o].txHash == Some(pc.txHash);
      OutsideTasks(cfg, s, a, o);
      assert o in c'.orders && c'.orders[o].txHash == Some(pc.txHash);
    }
    hide MayCreate, L.DebitSpec, Step, Next;
  }

  lemma StrandedStays(cfg: Config, s: System, a: Action, id: string)
    requires Inv(cfg, s) && Stranded(s, id)
    ensures Stranded(Next(cfg, s, a), id)
  {
    if a.Run? && a.task in s.tasks {
      RunLeavesStranded(cfg, s, a.task, a.env, id);
    } else {
      hide Inv, CanMove;
      var t := s.core.takers[id].task;
      OutsideTasks(cfg, s, a, id);
      MoreOrdersSameStop(cfg, s, a, id, s.tasks[t]);
      DoneCannotMove(Next(cfg, s, a).core, id);
      TakerUntouched(cfg, s, a, t, id);
    }
  }

  lemma TakerUntouched(cfg: Config, s: System, a: Action, t: nat, id: string)
    requires !(a.Run? && a.task in s.tasks) && t in s.tasks && StandsAt(s.tasks[t], id)
    ensures Next(cfg, s, a).tasks[t] == s.tasks[t] || Next(cfg, s, a).tasks[t] == Done
  {
    hide MayCreate, L.DebitSpec, Step;
  }

  /** A stranded order stays pending through every continuation. */
  lemma {:induction false} StrandedForever(cfg: Config, s: System, actions: seq<Action>, more: seq<Action>, id: string)
    requires Initial(s) && Stranded(Execute(cfg, s, actions), id)
    ensures Stranded(Execute(cfg, s, actions + more), id)
    decreases |more|
  {
    hide Next, Stranded;
    if more == [] {
      assert actions + more == actions;
    } else {
      var all, n := actions + more, |more| - 1;
      StrandedForever(cfg, s, actions, more[..n], id);
      assert all[..|all| - 1] == actions + more[..n];
      PipelineSteps.ReachableInv(cfg, s, actions + more[..n]);
      StrandedStays(cfg, Execute(cfg, s, actions + more[..n]), more[n], id);
    }
  }

  // ---------- and does ----------

  /** WEA cannot be reached: the request gives the order up. */
  const NO_ANSWER := Env(0, false, false, None, ChainAnswer("", None), "")

  lemma AnswerMovesOn(cfg: Config, s: System, t: nat, id: string)
    requires IsPending(s.core, id) && t in s.tasks && StandsAt(s.tasks[t], id) && CanMove(s.core, s.tasks[t], id)
    ensures var s' := Next(cfg, s, Run(t, NO_ANSWER));
            if s.tasks[t].LegacyPending? then
              && IsPending(s'.core, id) && t in s'.tasks && s'.tasks[t].LegacyFailing?
              && StandsAt(s'.tasks[t], id) && CanMove(s'.core, s'.tasks[t], id)
            else id in s'.core.orders && !IsPending(s'.core, id)
  {
    T.RunIsStep(cfg, s, t, NO_ANSWER);
    hide Next;
  }

  lemma {:induction false} HeldMovesOn(cfg: Config, s: System, id: string) returns (more: seq<Action>)
    requires IsPending(s.core, id) && Held(s, id) && StandsAt(s.tasks[s.core.takers[id].task], id)
    ensures id in Execute(cfg, s, more).core.orders && !IsPending(Execute(cfg, s, more).core, id)
  {
    hide IsPending, Next, StandsAt, CanMove;
    var t := s.core.takers[id].task;
    var run := Run(t, NO_ANSWER);
    AnswerMovesOn(cfg, s, t, id);
    T.OneMoreAction(cfg, s, [], run);
    T.OneMoreAction(cfg, s, [run], run);
    assert [] + [run] == [run] && Execute(cfg, s, []) == s;
    if s.tasks[t].LegacyPending? {
      AnswerMovesOn(cfg, Next(cfg, s, run), t, id);
      return [run] + [run];
    }
    return [run];
  }

  ghost predicate CanLeave(cfg: Config, s: System, actions: seq<Action>, id: string) {
    exists more :: !IsPending(Execute(cfg, s, actions + more).core, id)
  }

  /** In every reachable state a pending order can still leave `pending` exactly when the /proof request that took it is at
      work and waits for WEA, or holds an answer the database will take: a reason that fits, or a hash that fits and no
      other order has. */
  lemma {:induction false} PendingInTheEndIff(cfg: Config, s: System, actions: seq<Action>, id: string)
    requires Initial(s) && IsPending(Execute(cfg, s, actions).core, id)
    ensures CanLeave(cfg, s, actions, id) <==> Held(Execute(cfg, s, actions), id)
  {
    hide Execute, Initial, IsPending;
    var now := Execute(cfg, s, actions);
    ReachableTakers(cfg, s, actions);
    PendingIsTaken(cfg, now, id);
    hide Inv;
    assert TakerStands(now, id);
    if Held(now, id) {
      var more := HeldMovesOn(cfg, now, id);
      T.ExecuteSplits(cfg, s, actions, more);
    } else {
      forall more ensures IsPending(Execute(cfg, s, actions + more).core, id) {
        StrandedForever(cfg, s, actions, more, id);
      }
    }
  }

  lemma PendingIsTaken(cfg: Config, s: System, id: string)
    requires Inv(cfg, s) && IsPending(s.core, id)
    ensures id in s.core.takers
  {
    assert OrderOk(cfg, s.core, id);
  }
}
