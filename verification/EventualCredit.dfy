/** Which confirmed top-ups can still be credited, and which can still be posted to the ledger: exactly those whose
    confirmer still waits for the credit, and those for which a request to the token service is still under way. */
module EventualCredit {
  import opened Wrappers
  import opened Orders
  import opened Gateway
  import opened Pipeline
  import opened PipelineInvariant
  import PipelineSteps
  import T = PipelineTheorems
  import L = Ledger

  // ---------- where the task that closed an order stands ----------

  /** The credit call for the order is due, under way or answered, with a confirmer waiting or without, or all is over. */
  predicate StandsAt(pc: Pc, id: string) {
    match pc
    case Done => true
    case Crediting(o) => o.info.id == id
    case LookedUp(o, _) => o.info.id == id
    case Credited(o, _) => o.info.id == id
    case Orphaned(o) => o.info.id == id
    case OrphanedLookedUp(o, _) => o.info.id == id
    case _ => false
  }

  predicate AwaitsCredit(c: Core, id: string) {
    id in c.orders && c.orders[id].status == Confirmed && IsTopup(c.orders[id].info)
  }

  ghost predicate CloserStands(s: System, id: string)
    requires id in s.core.closers
  {
    var t := s.core.closers[id].task;
    t in s.tasks && (AwaitsCredit(s.core, id) ==> StandsAt(s.tasks[t], id))
  }

  ghost predicate ClosersStand(s: System) {
    forall id | id in s.core.closers :: CloserStands(s, id)
  }

  lemma OnlyClosersClose(cfg: Config, c: Core, t: nat, pc: Pc, env: Env)
    requires !pc.Failing? && !pc.Confirming?
    ensures Step(cfg, c, t, pc, env).0.closers == c.closers
  {
    hide Transition, CommitCheckout, AcceptProof, InsertProof, ProofFor, L.FindRef, L.InsertCredit, HashSeen;
  }

  lemma ClosesWhatItMoves(cfg: Config, c: Core, t: nat, pc: Pc, env: Env, id: string)
    requires TableOk(c.orders) && (pc.Failing? || pc.Confirming?)
    requires id !in c.closers && id in Step(cfg, c, t, pc, env).0.closers
    ensures var (c', pc') := Step(cfg, c, t, pc, env);
            && c'.closers[id].task == t && id in c.orders && c.orders[id].status == Broadcasting
            && (AwaitsCredit(c', id) ==> StandsAt(pc', id))
  {
    assert id in c.orders ==> c.orders[id].info.id == id;
    hide TableOk, FailureNote;
  }

  /** A step closes at most an order it takes out of `broadcasting`, and goes on to credit a top-up. */
  lemma StepCloses(cfg: Config, c: Core, t: nat, pc: Pc, env: Env, id: string)
    requires CoreOk(cfg, c) && id !in c.closers && id in Step(cfg, c, t, pc, env).0.closers
    ensures var (c', pc') := Step(cfg, c, t, pc, env);
            && (forall i :: !StandsAt(pc, i))
            && c'.closers[id].task == t && id in c.orders && c.orders[id].status == Broadcasting
            && (AwaitsCredit(c', id) ==> StandsAt(pc', id))
  {
    assert TableOk(c.orders);
    hide CoreOk, Step, AwaitsCredit, TableOk;
    if pc.Failing? || pc.Confirming? { ClosesWhatItMoves(cfg, c, t, pc, env, id); } else { OnlyClosersClose(cfg, c, t, pc, env); }
  }

  /** A step of the closer itself leaves the top-up waiting only while it stands at the credit call. */
  lemma CloserMovesOn(cfg: Config, c: Core, t: nat, pc: Pc, env: Env, id: string)
    requires StandsAt(pc, id) && AwaitsCredit(c, id)
    ensures AwaitsCredit(Step(cfg, c, t, pc, env).0, id) ==> StandsAt(Step(cfg, c, t, pc, env).1, id)
  {
    hide L.FindRef, L.InsertCredit;
  }

  /** A closed order that awaits its credit after a step awaited it before. */
  lemma StillAwaits(cfg: Config, c: Core, c': Core, t: nat, id: string)
    requires CoreOk(cfg, c) && Guarantee(c, c', t) && id in c.closers && AwaitsCredit(c', id)
    ensures AwaitsCredit(c, id)
  {
    assert id in c.orders && OrderOk(cfg, c, id);
    assert OrderStable(c, c', t, id);
  }

  lemma RunKeepsClosers(cfg: Config, s: System, t: nat, env: Env)
    requires Inv(cfg, s) && ClosersStand(s) && t in s.tasks
    ensures ClosersStand(Next(cfg, s, Run(t, env)))
  {
    hide CoreOk, Guarantee, TaskOk, Step, AwaitsCredit, StandsAt;
    var s' := Next(cfg, s, Run(t, env));
    PipelineSteps.StepKeeps(cfg, s.core, t, s.tasks[t], env);
    T.RunIsStep(cfg, s, t, env);
    forall id | id in s'.core.closers ensures CloserStands(s', id) {
      if id in s.core.closers {
        assert CloserStands(s, id);
        ClosersKept(s.core, s'.core, t, id);
        if AwaitsCredit(s'.core, id) { StillAwaits(cfg, s.core, s'.core, t, id); }
        if s.core.closers[id].task == t && AwaitsCredit(s.core, id) { CloserMovesOn(cfg, s.core, t, s.tasks[t], env, id); }
      } else {
        StepCloses(cfg, s.core, t, s.tasks[t], env, id);
      }
    }
  }

  lemma ClosersKept(c: Core, c': Core, t: nat, id: string)
    requires Guarantee(c, c', t) && id in c.closers
    ensures id in c'.closers && c'.closers[id] == c.closers[id]
  {
  }

  /** What an action that is no task's step leaves alone. */
  lemma OutsideTasks(cfg: Config, s: System, a: Action, id: string)
    requires !(a.Run? && a.task in s.tasks) && id in s.core.orders
    ensures var s' := Next(cfg, s, a);
            && id in s'.core.orders && s'.core.orders[id] == s.core.orders[id]
            && forall t | t in s.tasks :: t in s'.tasks && (StandsAt(s.tasks[t], id) ==> StandsAt(s'.tasks[t], id))
  {
    hide MayCreate, L.DebitSpec, Step;
  }

  lemma NextKeepsClosers(cfg: Config, s: System, a: Action)
    requires Inv(cfg, s) && ClosersStand(s)
    ensures ClosersStand(Next(cfg, s, a))
  {
    if a.Run? && a.task in s.tasks {
      RunKeepsClosers(cfg, s, a.task, a.env);
    } else {
      hide CoreOk, TaskOk, Next;
      var s' := Next(cfg, s, a);
      forall id | id in s'.core.closers ensures CloserStands(s', id) {
        ClosersUntouched(cfg, s, a);
        assert CloserStands(s, id);
        ClosedOrderExists(cfg, s.core, id);
        OutsideTasks(cfg, s, a, id);
      }
    }
  }

  lemma ClosersUntouched(cfg: Config, s: System, a: Action)
    requires !(a.Run? && a.task in s.tasks)
    ensures Next(cfg, s, a).core.closers == s.core.closers
  {
    hide MayCreate, L.DebitSpec, Step;
  }

  lemma ClosedOrderExists(cfg: Config, c: Core, id: string)
    requires CoreOk(cfg, c) && id in c.closers
    ensures id in c.orders
  {
  }

  lemma {:induction false} ReachableClosers(cfg: Config, s: System, actions: seq<Action>)
    requires Initial(s)
    ensures Inv(cfg, Execute(cfg, s, actions)) && ClosersStand(Execute(cfg, s, actions))
    decreases |actions|
  {
    hide Next, Inv;
    PipelineSteps.ReachableInv(cfg, s, actions);
    if actions != [] {
      var before := actions[..|actions| - 1];
      ReachableClosers(cfg, s, before);
      NextKeepsClosers(cfg, Execute(cfg, s, before), actions[|actions| - 1]);
    }
  }

  // ---------- nobody left: never credited ----------

  /** The confirmer waits for the credit, or is about to write it down. */
  predicate Waits(pc: Pc) {
    pc.Crediting? || pc.LookedUp? || pc.Credited?
  }

  /** A credit request is under way. */
  predicate Requests(pc: Pc) {
    pc.Crediting? || pc.LookedUp? || pc.Orphaned? || pc.OrphanedLookedUp?
  }

  /** The confirmer that took the order out of `broadcasting` still waits for its credit. */
  ghost predicate Attended(s: System, id: string) {
    id in s.core.closers && s.core.closers[id].task in s.tasks && Waits(s.tasks[s.core.closers[id].task])
  }

  /** Its request to the token service has not come to an end. */
  ghost predicate Requested(s: System, id: string) {
    id in s.core.closers && s.core.closers[id].task in s.tasks && Requests(s.tasks[s.core.closers[id].task])
  }

  /** Nothing of the confirmer is left but, perhaps, its request. */
  predicate Quiet(pc: Pc) {
    pc == Done || pc.Orphaned? || pc.OrphanedLookedUp?
  }

  /** Confirmed, and no confirmer that waits: it is gone, or there never was one. */
  ghost predicate Abandoned(s: System, id: string) {
    && id in s.core.orders && s.core.orders[id].status == Confirmed
    && (id in s.core.closers ==> s.core.closers[id].task in s.tasks && Quiet(s.tasks[s.core.closers[id].task]))
  }

  /** Not posted either, and no request under way. */
  ghost predicate Forgotten(s: System, id: string) {
    && id in s.core.orders && s.core.orders[id].status == Confirmed && Unposted(s.core, id)
    && (id in s.core.closers ==> s.core.closers[id].task in s.tasks && s.tasks[s.core.closers[id].task] == Done)
  }

  lemma StatusKept(c: Core, c': Core, t: nat, id: string)
    requires Guarantee(c, c', t) && id in c.orders && c.orders[id].status == Confirmed
    requires id in c.closers ==> c.closers[id].task != t
    ensures id in c'.orders && c'.orders[id].status == Confirmed
    ensures id in c.closers ==> id in c'.closers && c'.closers[id] == c.closers[id]
    ensures Unposted(c, id) ==> Unposted(c', id)
  {
    assert OrderStable(c, c', t, id);
  }

  lemma AbandonedCoreKept(cfg: Config, c: Core, t: nat, pc: Pc, env: Env, id: string)
    requires CoreOk(cfg, c) && TaskOk(c, t, pc) && id in c.orders && c.orders[id].status == Confirmed
    requires id in c.closers ==> c.closers[id].task != t
    ensures var c' := Step(cfg, c, t, pc, env).0;
            && id in c'.orders && c'.orders[id].status == Confirmed
            && (id in c'.closers <==> id in c.closers) && (id in c.closers ==> c'.closers[id] == c.closers[id])
            && (Unposted(c, id) ==> Unposted(c', id))
  {
    hide CoreOk, TaskOk, Step, Guarantee, Unposted, AwaitsCredit, StandsAt;
    var c' := Step(cfg, c, t, pc, env).0;
    PipelineSteps.StepKeeps(cfg, c, t, pc, env);
    StatusKept(c, c', t, id);
    if id !in c.closers && id in c'.closers { StepCloses(cfg, c, t, pc, env, id); }
  }

  /** What is left of a confirmer that does not wait moves no order. */
  lemma QuietStep(cfg: Config, c: Core, t: nat, pc: Pc, env: Env)
    requires Quiet(pc)
    ensures var (c', pc') := Step(cfg, c, t, pc, env);
            && c'.orders == c.orders && c'.closers == c.closers && Quiet(pc') && (pc == Done ==> c' == c && pc' == Done)
  {
    hide L.FindRef, L.InsertCredit;
  }

  lemma AbandonedStays(cfg: Config, s: System, a: Action, id: string)
    requires Inv(cfg, s) && Abandoned(s, id)
    ensures Abandoned(Next(cfg, s, a), id)
  {
    hide CoreOk, TaskOk, MayCreate, Step;
    if a.Run? && a.task in s.tasks {
      if id in s.core.closers && s.core.closers[id].task == a.task {
        QuietStep(cfg, s.core, a.task, s.tasks[a.task], a.env);
      } else {
        AbandonedCoreKept(cfg, s.core, a.task, s.tasks[a.task], a.env, id);
      }
    }
  }

  lemma ForgottenStays(cfg: Config, s: System, a: Action, id: string)
    requires Inv(cfg, s) && Forgotten(s, id)
    ensures Forgotten(Next(cfg, s, a), id)
  {
    hide CoreOk, TaskOk, MayCreate, Step;
    if a.Run? && a.task in s.tasks {
      if id in s.core.closers && s.core.closers[id].task == a.task {
        QuietStep(cfg, s.core, a.task, s.tasks[a.task], a.env);
      } else {
        AbandonedCoreKept(cfg, s.core, a.task, s.tasks[a.task], a.env, id);
      }
    }
  }

  /** An abandoned order stays confirmed through every continuation. */
  lemma {:induction false} AbandonedForever(cfg: Config, s: System, actions: seq<Action>, more: seq<Action>, id: string)
    requires Initial(s) && Abandoned(Execute(cfg, s, actions), id)
    ensures Abandoned(Execute(cfg, s, actions + more), id)
    decreases |more|
  {
    hide Next, Abandoned;
    if more == [] {
      assert actions + more == actions;
    } else {
      var all, n := actions + more, |more| - 1;
      AbandonedForever(cfg, s, actions, more[..n], id);
      assert all[..|all| - 1] == actions + more[..n];
      PipelineSteps.ReachableInv(cfg, s, actions + more[..n]);
      AbandonedStays(cfg, Execute(cfg, s, actions + more[..n]), more[n], id);
    }
  }

  /** A forgotten one also stays unposted. */
  lemma {:induction false} ForgottenForever(cfg: Config, s: System, actions: seq<Action>, more: seq<Action>, id: string)
    requires Initial(s) && Forgotten(Execute(cfg, s, actions), id)
    ensures Forgotten(Execute(cfg, s, actions + more), id)
    decreases |more|
  {
    hide Next, Forgotten;
    if more == [] {
      assert actions + more == actions;
    } else {
      var all, n := actions + more, |more| - 1;
      ForgottenForever(cfg, s, actions, more[..n], id);
      assert all[..|all| - 1] == actions + more[..n];
      PipelineSteps.ReachableInv(cfg, s, actions + more[..n]);
      ForgottenStays(cfg, Execute(cfg, s, actions + more[..n]), more[n], id);
    }
  }

  // ---------- somebody left: it can be credited ----------

  predicate IsCredited(c: Core, id: string) {
    id in c.orders && c.orders[id].status == TokenCredited
  }

  const GOOD_ANSWER := Env(0, true, true, None, ChainAnswer("", None), "")

  /** The copy of the order a credit request carries. */
  predicate CarriesOrder(c: Core, pc: Pc, id: string) {
    (Waits(pc) || Requests(pc)) && pc.order.info.id == id && id in c.orders && pc.order.info == c.orders[id].info
  }

  /** The token service knows the order's merchant. */
  predicate MerchantKnown(c: Core, id: string) {
    id in c.orders && L.Known(c.ledger, c.orders[id].info.merchant)
  }

  lemma FinishesFromCredited(cfg: Config, s: System, t: nat, id: string)
    requires t in s.tasks && s.tasks[t].Credited? && s.tasks[t].order.info.id == id && AwaitsCredit(s.core, id)
    ensures IsCredited(Next(cfg, s, Run(t, GOOD_ANSWER)).core, id)
  {
    T.RunIsStep(cfg, s, t, GOOD_ANSWER);
    hide Next;
  }

  lemma InsertsFromLookedUp(cfg: Config, s: System, t: nat, id: string)
    requires t in s.tasks && s.tasks[t].LookedUp? && CarriesOrder(s.core, s.tasks[t], id) && AwaitsCredit(s.core, id)
    requires MerchantKnown(s.core, id)
    ensures var s' := Next(cfg, s, Run(t, GOOD_ANSWER));
            t in s'.tasks && s'.tasks[t].Credited? && CarriesOrder(s'.core, s'.tasks[t], id) && AwaitsCredit(s'.core, id)
  {
    T.RunIsStep(cfg, s, t, GOOD_ANSWER);
    hide Next, L.PostCredit;
  }

  lemma AmountIsPositive(cfg: Config, c: Core, pc: Pc, id: string)
    requires CoreOk(cfg, c) && CarriesOrder(c, pc, id)
    ensures pc.order.info.amount > 0
  {
    assert c.orders[id].info.amount > 0;
  }

  lemma LooksUpFromCrediting(cfg: Config, s: System, t: nat, id: string)
    requires CoreOk(cfg, s.core) && AwaitsCredit(s.core, id)
    requires t in s.tasks && s.tasks[t].Crediting? && CarriesOrder(s.core, s.tasks[t], id)
    ensures var s' := Next(cfg, s, Run(t, GOOD_ANSWER));
            t in s'.tasks && s'.tasks[t].LookedUp? && CarriesOrder(s'.core, s'.tasks[t], id) && s'.core == s.core
  {
    AmountIsPositive(cfg, s.core, s.tasks[t], id);
    hide CoreOk, L.FindRef;
    T.RunIsStep(cfg, s, t, GOOD_ANSWER);
    hide Next;
  }

  /** How many of its steps the closer still needs. */
  function StepsLeft(pc: Pc): nat {
    match pc
    case Crediting(_) => 3
    case LookedUp(_, _) => 2
    case Credited(_, _) => 1
    case _ => 0
  }

  /** n steps of one task, each with a good answer. */
  function Steps(t: nat, n: nat): seq<Action> {
    seq(n, _ => Run(t, GOOD_ANSWER))
  }

  lemma StepsUnroll(cfg: Config, s: System, t: nat, n: nat)
    requires n > 0
    ensures Execute(cfg, s, Steps(t, n)) == Execute(cfg, Next(cfg, s, Run(t, GOOD_ANSWER)), Steps(t, n - 1))
  {
    hide Next;
    var run := [Run(t, GOOD_ANSWER)];
    assert Steps(t, n) == run + Steps(t, n - 1);
    T.ExecuteSplits(cfg, s, run, Steps(t, n - 1));
    T.OneMoreAction(cfg, s, [], run[0]);
    assert [] + run == run && Execute(cfg, s, []) == s;
  }

  lemma {:induction false} WaitingTaskCredits(cfg: Config, s: System, t: nat, id: string)
    requires Inv(cfg, s) && AwaitsCredit(s.core, id) && MerchantKnown(s.core, id)
    requires t in s.tasks && Waits(s.tasks[t]) && CarriesOrder(s.core, s.tasks[t], id)
    ensures IsCredited(Execute(cfg, s, Steps(t, StepsLeft(s.tasks[t]))).core, id)
    decreases StepsLeft(s.tasks[t])
  {
    hide Next, AwaitsCredit, IsCredited, CarriesOrder, MerchantKnown, CoreOk, TaskOk, Execute;
    var s' := Next(cfg, s, Run(t, GOOD_ANSWER));
    StepsUnroll(cfg, s, t, StepsLeft(s.tasks[t]));
    if s.tasks[t].Credited? {
      CreditedCarries(s, t, id);
      FinishesFromCredited(cfg, s, t, id);
      NoSteps(cfg, s', t);
    } else {
      PipelineSteps.NextKeeps(cfg, s, Run(t, GOOD_ANSWER));
      if s.tasks[t].LookedUp? { InsertsFromLookedUp(cfg, s, t, id); } else { LooksUpFromCrediting(cfg, s, t, id); }
      StillKnown(cfg, s, t, id);
      WaitingTaskCredits(cfg, s', t, id);
    }
  }

  lemma NoSteps(cfg: Config, s: System, t: nat)
    ensures Execute(cfg, s, Steps(t, 0)) == s
  {
  }

  lemma CreditedCarries(s: System, t: nat, id: string)
    requires t in s.tasks && CarriesOrder(s.core, s.tasks[t], id)
    ensures s.tasks[t].order.info.id == id
  {
  }

  lemma StillKnown(cfg: Config, s: System, t: nat, id: string)
    requires Inv(cfg, s) && t in s.tasks && MerchantKnown(s.core, id) && (s.tasks[t].Crediting? || s.tasks[t].LookedUp?)
    ensures MerchantKnown(Next(cfg, s, Run(t, GOOD_ANSWER)).core, id)
  {
    hide Inv, L.FindRef;
    T.RunIsStep(cfg, s, t, GOOD_ANSWER);
    hide Next;
  }

  /** The steps a request needs to be posted. */
  function StepsToPost(pc: Pc): nat {
    if pc.Crediting? || pc.Orphaned? then 2 else 1
  }

  lemma InsertPosts(cfg: Config, s: System, t: nat, id: string)
    requires AwaitsCredit(s.core, id) && MerchantKnown(s.core, id)
    requires t in s.tasks && (s.tasks[t].LookedUp? || s.tasks[t].OrphanedLookedUp?) && CarriesOrder(s.core, s.tasks[t], id)
    requires s.tasks[t].found == None
    ensures T.Posted(Next(cfg, s, Run(t, GOOD_ANSWER)).core, id)
  {
    T.RunIsStep(cfg, s, t, GOOD_ANSWER);
    var c' := Next(cfg, s, Run(t, GOOD_ANSWER)).core;
    hide Next;
    assert IsPaymentFor(c'.ledger.entries[|s.core.ledger.entries|], id);
  }

  lemma LookUpGoesOn(cfg: Config, s: System, t: nat, id: string)
    requires AwaitsCredit(s.core, id) && MerchantKnown(s.core, id)
    requires t in s.tasks && (s.tasks[t].Crediting? || s.tasks[t].Orphaned?) && CarriesOrder(s.core, s.tasks[t], id)
    requires s.tasks[t].order.info.amount > 0
    ensures var s' := Next(cfg, s, Run(t, GOOD_ANSWER));
            && s'.core == s.core && t in s'.tasks
            && (s'.tasks[t].LookedUp? || s'.tasks[t].OrphanedLookedUp?) && CarriesOrder(s'.core, s'.tasks[t], id)
  {
    hide L.FindRef;
    T.RunIsStep(cfg, s, t, GOOD_ANSWER);
    hide Next;
  }

  /** What the invariant says of a request. */
  lemma RequestFacts(cfg: Config, s: System, t: nat, id: string)
    requires Inv(cfg, s) && t in s.tasks && Requests(s.tasks[t]) && CarriesOrder(s.core, s.tasks[t], id)
    ensures s.tasks[t].order.info.amount > 0
    ensures s.tasks[t].LookedUp? || s.tasks[t].OrphanedLookedUp? ==> s.tasks[t].found == None
  {
    AmountIsPositive(cfg, s.core, s.tasks[t], id);
    hide CoreOk;
    assert TaskOk(s.core, t, s.tasks[t]);
    if s.tasks[t].LookedUp? || s.tasks[t].OrphanedLookedUp? { T.LookupsFoundNothing(s.core, t, s.tasks[t]); }
  }

  lemma RequestPosts(cfg: Config, s: System, t: nat, id: string)
    requires Inv(cfg, s) && AwaitsCredit(s.core, id) && MerchantKnown(s.core, id)
    requires t in s.tasks && Requests(s.tasks[t]) && CarriesOrder(s.core, s.tasks[t], id)
    ensures T.Posted(Execute(cfg, s, Steps(t, StepsToPost(s.tasks[t]))).core, id)
  {
    hide Next, AwaitsCredit, CarriesOrder, MerchantKnown, Inv, Execute, T.Posted;
    var s' := Next(cfg, s, Run(t, GOOD_ANSWER));
    StepsUnroll(cfg, s, t, StepsToPost(s.tasks[t]));
    RequestFacts(cfg, s, t, id);
    if s.tasks[t].Crediting? || s.tasks[t].Orphaned? {
      LookUpGoesOn(cfg, s, t, id);
      PipelineSteps.NextKeeps(cfg, s, Run(t, GOOD_ANSWER));
      RequestFacts(cfg, s', t, id);
      StepsUnroll(cfg, s', t, 1);
      NoSteps(cfg, Next(cfg, s', Run(t, GOOD_ANSWER)), t);
      InsertPosts(cfg, s', t, id);
    } else {
      NoSteps(cfg, s', t);
      InsertPosts(cfg, s, t, id);
    }
  }

  /** First the merchant joins the token service, unless it has: then nothing stands in the way of its credits. */
  lemma MerchantJoins(cfg: Config, s: System, id: string)
    requires Inv(cfg, s) && AwaitsCredit(s.core, id)
    ensures var s' := Next(cfg, s, Register(s.core.orders[id].info.merchant));
            && Inv(cfg, s') && s'.tasks == s.tasks && s'.core.closers == s.core.closers && s'.core.orders == s.core.orders
            && AwaitsCredit(s'.core, id) && MerchantKnown(s'.core, id)
  {
    hide Inv, Step, MayCreate, IsTopup;
    PipelineSteps.NextKeeps(cfg, s, Register(s.core.orders[id].info.merchant));
  }

  lemma CloserCarries(cfg: Config, s: System, id: string)
    requires Inv(cfg, s) && ClosersStand(s) && AwaitsCredit(s.core, id) && (Attended(s, id) || Requested(s, id))
    ensures CarriesOrder(s.core, s.tasks[s.core.closers[id].task], id)
  {
    assert CloserStands(s, id);
    ClaimCarries(s.core, s.core.closers[id].task, s.tasks[s.core.closers[id].task]);
  }

  lemma ClaimCarries(c: Core, t: nat, pc: Pc)
    requires TaskOk(c, t, pc) && (Waits(pc) || Requests(pc))
    ensures CopyOk(c, pc.order)
  {
  }

  /** Wherever the waiting confirmer stands, at most three of its own steps credit the order, once its merchant has
      joined the token service. */
  lemma {:induction false} AttendedGetsCredited(cfg: Config, s: System, id: string)
    requires Inv(cfg, s) && ClosersStand(s) && AwaitsCredit(s.core, id) && Attended(s, id)
    ensures var t := s.core.closers[id].task;
            IsCredited(Execute(cfg, s, [Register(s.core.orders[id].info.merchant)] + Steps(t, StepsLeft(s.tasks[t]))).core, id)
  {
    hide IsCredited, Next, Execute;
    var t, join := s.core.closers[id].task, Register(s.core.orders[id].info.merchant);
    CloserCarries(cfg, s, id);
    MerchantJoins(cfg, s, id);
    JoinFirst(cfg, s, join, Steps(t, StepsLeft(s.tasks[t])));
    hide Inv, ClosersStand;
    WaitingTaskCredits(cfg, Next(cfg, s, join), t, id);
  }

  lemma {:induction false} RequestedGetsPosted(cfg: Config, s: System, id: string)
    requires Inv(cfg, s) && ClosersStand(s) && AwaitsCredit(s.core, id) && Requested(s, id)
    ensures var t := s.core.closers[id].task;
            T.Posted(Execute(cfg, s, [Register(s.core.orders[id].info.merchant)] + Steps(t, StepsToPost(s.tasks[t]))).core, id)
  {
    hide T.Posted, Next, Execute;
    var t, join := s.core.closers[id].task, Register(s.core.orders[id].info.merchant);
    CloserCarries(cfg, s, id);
    MerchantJoins(cfg, s, id);
    JoinFirst(cfg, s, join, Steps(t, StepsToPost(s.tasks[t])));
    hide Inv, ClosersStand;
    RequestPosts(cfg, Next(cfg, s, join), t, id);
  }

  /** A confirmer that stops waiting before the answer leaves a request that still posts the order. */
  lemma {:induction false} RequestOutlivesItsConfirmer(cfg: Config, s: System, id: string)
    requires Inv(cfg, s) && ClosersStand(s) && AwaitsCredit(s.core, id) && Attended(s, id)
    requires var pc := s.tasks[s.core.closers[id].task]; pc.Crediting? || pc.LookedUp?
    ensures var t := s.core.closers[id].task; var alone := Next(cfg, s, LoseReply(t));
            && alone.core == s.core && !Attended(alone, id) && t in alone.tasks
            && T.Posted(Execute(cfg, alone, [Register(s.core.orders[id].info.merchant)] + Steps(t, StepsToPost(alone.tasks[t]))).core, id)
  {
    hide Inv, ClosersStand, Execute, T.Posted, Next, Steps, StepsToPost;
    var lose := LoseReply(s.core.closers[id].task);
    LosesOnlyTheReply(cfg, s, id);
    PipelineSteps.NextKeeps(cfg, s, lose);
    NextKeepsClosers(cfg, s, lose);
    RequestedGetsPosted(cfg, Next(cfg, s, lose), id);
  }

  lemma LosesOnlyTheReply(cfg: Config, s: System, id: string)
    requires Attended(s, id) && !s.tasks[s.core.closers[id].task].Credited?
    ensures var t := s.core.closers[id].task; var alone := Next(cfg, s, LoseReply(t));
            alone.core == s.core && !Attended(alone, id) && Requested(alone, id) && t in alone.tasks
  {
    hide Step, MayCreate, L.DebitSpec;
  }

  lemma JoinFirst(cfg: Config, s: System, join: Action, rest: seq<Action>)
    ensures Execute(cfg, s, [join] + rest) == Execute(cfg, Next(cfg, s, join), rest)
  {
    hide Next;
    T.ExecuteSplits(cfg, s, [join], rest);
    T.OneMoreAction(cfg, s, [], join);
    assert [] + [join] == [join] && Execute(cfg, s, []) == s;
  }

  // ---------- the exact condition ----------

  ghost predicate CanBeCredited(cfg: Config, s: System, actions: seq<Action>, id: string) {
    exists more :: IsCredited(Execute(cfg, s, actions + more).core, id)
  }

  ghost predicate CanBePosted(cfg: Config, s: System, actions: seq<Action>, id: string) {
    exists more :: T.Posted(Execute(cfg, s, actions + more).core, id)
  }

  /** In every reachable state a confirmed top-up can still become token_credited exactly when a confirmer took it out of
      `broadcasting` and still waits for the credit, or has its answer. */
  lemma {:induction false} CreditedInTheEndIff(cfg: Config, s: System, actions: seq<Action>, id: string)
    requires Initial(s) && AwaitsCredit(Execute(cfg, s, actions).core, id)
    ensures CanBeCredited(cfg, s, actions, id) <==> Attended(Execute(cfg, s, actions), id)
  {
    hide Execute, Inv, Initial, AwaitsCredit;
    var now := Execute(cfg, s, actions);
    ReachableClosers(cfg, s, actions);
    if Attended(now, id) {
      var t := now.core.closers[id].task;
      var more := [Register(OrderIn(now.core, id).info.merchant)] + Steps(t, StepsLeft(now.tasks[t]));
      AttendedGetsCredited(cfg, now, id);
      T.ExecuteSplits(cfg, s, actions, more);
    } else {
      NotAttendedIsAbandoned(now, id);
      forall more ensures !IsCredited(Execute(cfg, s, actions + more).core, id) {
        AbandonedForever(cfg, s, actions, more, id);
      }
    }
  }

  /** And one that is not yet posted can still be posted exactly when the confirmer's request is under way, whether it
      still waits or not. */
  lemma {:induction false} PostedInTheEndIff(cfg: Config, s: System, actions: seq<Action>, id: string)
    requires Initial(s) && AwaitsCredit(Execute(cfg, s, actions).core, id) && Unposted(Execute(cfg, s, actions).core, id)
    ensures CanBePosted(cfg, s, actions, id) <==> Requested(Execute(cfg, s, actions), id)
  {
    hide Execute, Inv, Initial, AwaitsCredit;
    var now := Execute(cfg, s, actions);
    ReachableClosers(cfg, s, actions);
    if Requested(now, id) {
      var t := now.core.closers[id].task;
      var more := [Register(OrderIn(now.core, id).info.merchant)] + Steps(t, StepsToPost(now.tasks[t]));
      RequestedGetsPosted(cfg, now, id);
      T.ExecuteSplits(cfg, s, actions, more);
    } else {
      NotRequestedIsForgotten(cfg, now, id);
      forall more ensures !T.Posted(Execute(cfg, s, actions + more).core, id) {
        ForgottenForever(cfg, s, actions, more, id);
      }
    }
  }

  function OrderIn(c: Core, id: string): (o: Order)
    requires AwaitsCredit(c, id)
  {
    c.orders[id]
  }

  lemma NotAttendedIsAbandoned(s: System, id: string)
    requires ClosersStand(s) && AwaitsCredit(s.core, id) && !Attended(s, id)
    ensures Abandoned(s, id)
  {
    assert id in s.core.closers ==> CloserStands(s, id);
  }

  /** A confirmer that has its answer has posted. */
  lemma NotRequestedIsForgotten(cfg: Config, s: System, id: string)
    requires Inv(cfg, s) && ClosersStand(s) && AwaitsCredit(s.core, id) && Unposted(s.core, id) && !Requested(s, id)
    ensures Forgotten(s, id)
  {
    if id in s.core.closers {
      assert CloserStands(s, id);
      var t := s.core.closers[id].task;
      if s.tasks[t].Credited? { AnsweredHasPosted(s.core, t, s.tasks[t], id); }
    }
  }

  lemma AnsweredHasPosted(c: Core, t: nat, pc: Pc, id: string)
    requires TaskOk(c, t, pc) && pc.Credited? && pc.order.info.id == id
    ensures !Unposted(c, id)
  {
    var k :| 0 <= k < |c.ledger.entries| && c.ledger.entries[k].id == pc.entryId && Credits(c.ledger.entries[k], pc.order.info);
    assert IsPaymentFor(c.ledger.entries[k], id);
  }
  // ---------- top-ups that never have a confirmer ----------

  /** Whenever the protected route confirms an order, no confirmer ever will: if the order is a top-up, it is abandoned
      at that moment. */
  lemma CheckoutLeavesNoConfirmer(cfg: Config, s: System, t: nat, e: Env)
    requires Inv(cfg, s) && t in s.tasks && s.tasks[t].CheckoutSettled?
    requires CommitCheckout(s.core.orders, s.tasks[t].order.info.id, s.tasks[t].txHash, e.now).Ok?
    ensures var s' := Next(cfg, s, Run(t, e)); var id := s.tasks[t].order.info.id;
            Abandoned(s', id) && id !in s'.core.closers && s'.core.orders[id].info == s.core.orders[id].info
  {
    var id := s.tasks[t].order.info.id;
    CommitCheckoutOutcome(s.core.orders, id, s.tasks[t].txHash, e.now);
    CreatedIsNotClosed(cfg, s.core, id);
    hide Inv, CommitCheckout;
    T.RunIsStep(cfg, s, t, e);
    hide Next;
  }

  lemma CreatedIsNotClosed(cfg: Config, c: Core, id: string)
    requires CoreOk(cfg, c) && id in c.orders && c.orders[id].status == Created
    ensures id !in c.closers
  {
    assert OrderOk(cfg, c, id);
  }
}
