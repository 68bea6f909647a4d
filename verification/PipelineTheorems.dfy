/** What holds in every state the pipeline can reach, for every configuration, every interleaving and
    every answer from outside. */
module PipelineTheorems {
  import opened Wrappers
  import opened Orders
  import opened Gateway
  import opened Pipeline
  import opened PipelineInvariant
  import PipelineSteps
  import L = Ledger
  import P = ProofVerifier

  // ---------- money ----------

  /** Some payment entry has been posted for the order. */
  ghost predicate Posted(c: Core, id: string) {
    exists k :: 0 <= k < |c.ledger.entries| && c.ledger.entries[k].source == L.X402Payment && c.ledger.entries[k].sourceRef == Some(id)
  }

  /** The merchant's top-up orders whose credit was posted. */
  ghost function PostedTopups(c: Core, merchant: string): set<string> {
    set id | id in c.orders && c.orders[id].info.merchant == merchant && TokenKind(c.orders[id].info.kind) && Posted(c, id)
  }

  /** The settlement kinds that get tokens. */
  predicate TokenKind(kind: Option<string>) {
    kind == None || kind == Some("") || kind == Some("token_topup")
  }

  ghost function SumAmounts(t: Table, ids: set<string>): int
    requires ids <= t.Keys
  {
    if ids == {} then 0 else var id :| id in ids; t[id].info.amount + SumAmounts(t, ids - {id})
  }

  function SumDebits(entries: seq<L.Entry>, merchant: string): int {
    if entries == [] then 0
    else
      var last := entries[|entries| - 1];
      SumDebits(entries[..|entries| - 1], merchant) + if last.merchant == merchant && last.kind == L.Debit then last.amount else 0
  }

  lemma {:induction false} SumRemove(t: Table, ids: set<string>, x: string)
    requires ids <= t.Keys && x in ids
    ensures SumAmounts(t, ids) == t[x].info.amount + SumAmounts(t, ids - {x})
    decreases ids
  {
    var y :| y in ids && SumAmounts(t, ids) == t[y].info.amount + SumAmounts(t, ids - {y});
    if y != x {
      SumRemove(t, ids - {y}, x);
      SumRemove(t, ids - {x}, y);
      assert ids - {y} - {x} == ids - {x} - {y};
    }
  }

  /** Orders of one merchant credited by a prefix of the history. */
  function CreditedBy(entries: seq<L.Entry>, merchant: string): set<string> {
    if entries == [] then {}
    else
      var last := entries[|entries| - 1];
      CreditedBy(entries[..|entries| - 1], merchant)
      + if last.source == L.X402Payment && last.merchant == merchant && last.sourceRef.Some? then {last.sourceRef.value} else {}
  }

  lemma {:induction false} CreditedByMeaning(entries: seq<L.Entry>, merchant: string, id: string)
    ensures id in CreditedBy(entries, merchant)
       <==> exists k :: 0 <= k < |entries| && entries[k].merchant == merchant && IsPaymentFor(entries[k], id)
  {
    if entries != [] {
      var init := entries[..|entries| - 1];
      CreditedByMeaning(init, merchant, id);
      if id in CreditedBy(init, merchant) {
        var k :| 0 <= k < |init| && init[k].merchant == merchant && IsPaymentFor(init[k], id);
        assert entries[k] == init[k];
      }
      forall k | 0 <= k < |entries| && entries[k].merchant == merchant && IsPaymentFor(entries[k], id)
        ensures id in CreditedBy(entries, merchant)
      {
        assert k < |init| ==> init[k] == entries[k];
      }
    }
  }

  /** Along any prefix of a good history: net = amounts of the credited orders - debits. */
  lemma {:induction false} PrefixConserves(c: Core, merchant: string, n: nat)
    requires EntriesOk(c) && n <= |c.ledger.entries|
    ensures CreditedBy(c.ledger.entries[..n], merchant) <= c.orders.Keys
    ensures L.Net(c.ledger.entries[..n], merchant)
         == SumAmounts(c.orders, CreditedBy(c.ledger.entries[..n], merchant)) - SumDebits(c.ledger.entries[..n], merchant)
  {
    hide L.Consistent;
    if n > 0 {
      PrefixConserves(c, merchant, n - 1);
      var prefix, last := c.ledger.entries[..n], c.ledger.entries[n - 1];
      assert prefix[..|prefix| - 1] == c.ledger.entries[..n - 1] && prefix[|prefix| - 1] == last;
      assert EntryOk(c, n - 1);
      var before, after := CreditedBy(c.ledger.entries[..n - 1], merchant), CreditedBy(prefix, merchant);
      if last.source == L.X402Payment && last.merchant == merchant {
        NewlyCredited(c, merchant, n);
        SumRemove(c.orders, after, last.sourceRef.value);
        assert after - {last.sourceRef.value} == before;
      } else {
        assert after == before;
      }
    }
  }

  lemma NewlyCredited(c: Core, merchant: string, n: nat)
    requires EntriesOk(c) && 0 < n <= |c.ledger.entries| && c.ledger.entries[n - 1].source == L.X402Payment
    ensures EntryOk(c, n - 1) && c.ledger.entries[n - 1].sourceRef.value !in CreditedBy(c.ledger.entries[..n - 1], merchant)
  {
    assert EntryOk(c, n - 1);
    CreditedByMeaning(c.ledger.entries[..n - 1], merchant, c.ledger.entries[n - 1].sourceRef.value);
  }

  lemma CreditedArePostedTopups(c: Core, merchant: string)
    requires EntriesOk(c) && forall id | id in c.orders :: c.orders[id].info.id == id
    ensures CreditedBy(c.ledger.entries, merchant) == PostedTopups(c, merchant)
  {
    hide L.Consistent;
    forall id ensures id in CreditedBy(c.ledger.entries, merchant) <==> id in PostedTopups(c, merchant) {
      CreditedByMeaning(c.ledger.entries, merchant, id);
      forall k | 0 <= k < |c.ledger.entries| && IsPaymentFor(c.ledger.entries[k], id)
        ensures id in c.orders && c.ledger.entries[k].merchant == c.orders[id].info.merchant && TokenKind(c.orders[id].info.kind)
      {
        assert EntryOk(c, k);
        TopupKinds(c.orders[id].info);
      }
    }
  }

  /** Each merchant's cached balance is the sum of amount_usdc_micro over its top-up orders whose credit
      was posted, each order once, minus its debits. */
  lemma {:induction false} MoneyIsConserved(cfg: Config, s: System, actions: seq<Action>, merchant: string)
    requires Initial(s)
    ensures var c := Execute(cfg, s, actions).core;
            L.BalanceOf(c.ledger, merchant)
            == SumAmounts(c.orders, PostedTopups(c, merchant)) - SumDebits(c.ledger.entries, merchant)
  {
    hide Execute, Initial;
    PipelineSteps.ReachableInv(cfg, s, actions);
    BalanceConserves(cfg, Execute(cfg, s, actions).core, merchant);
  }

  lemma BalanceConserves(cfg: Config, c: Core, merchant: string)
    requires CoreOk(cfg, c)
    ensures L.BalanceOf(c.ledger, merchant)
         == SumAmounts(c.orders, PostedTopups(c, merchant)) - SumDebits(c.ledger.entries, merchant)
  {
    var n := |c.ledger.entries|;
    assert c.ledger.entries[..n] == c.ledger.entries;
    L.CachedBalanceIsNet(c.ledger, merchant);
    assert forall id | id in c.orders :: c.orders[id].info.id == id;
    assert EntriesOk(c);
    hide CoreOk, EntriesOk, OrdersOk, TableOk;
    PrefixConserves(c, merchant, n);
    CreditedArePostedTopups(c, merchant);
  }

  /** No order is credited twice, and the service's own idempotency check never has to prevent it: no
      request that has looked up the reference, with its confirmer or without, has ever found an entry. */
  lemma CreditedAtMostOnce(cfg: Config, s: System, actions: seq<Action>)
    requires Initial(s)
    ensures var s' := Execute(cfg, s, actions);
            && (forall j, k, id | 0 <= j < |s'.core.ledger.entries| && 0 <= k < |s'.core.ledger.entries|
                  && IsPaymentFor(s'.core.ledger.entries[j], id) && IsPaymentFor(s'.core.ledger.entries[k], id) :: j == k)
            && (forall t | t in s'.tasks && (s'.tasks[t].LookedUp? || s'.tasks[t].OrphanedLookedUp?) :: s'.tasks[t].found == None)
  {
    PipelineSteps.ReachableInv(cfg, s, actions);
    hide Execute, OrdersOk, ProofsOk, EventsOk, ResponsesOk, SettlesOk, L.Consistent, TaskOk;
    var s' := Execute(cfg, s, actions);
    forall t | t in s'.tasks && (s'.tasks[t].LookedUp? || s'.tasks[t].OrphanedLookedUp?) ensures s'.tasks[t].found == None {
      LookupsFoundNothing(s'.core, t, s'.tasks[t]);
    }
  }

  lemma LookupsFoundNothing(c: Core, t: nat, pc: Pc)
    requires TaskOk(c, t, pc) && (pc.LookedUp? || pc.OrphanedLookedUp?)
    ensures pc.found == None
  {
  }

  /** Entry `entryId` credits this order, and no other entry does. */
  ghost predicate NamesTheOnlyEntry(c: Core, entryId: nat, info: OrderInfo) {
    exists k ::
      && 0 <= k < |c.ledger.entries|
      && (var e := c.ledger.entries[k];
          e == L.Entry(entryId, info.merchant, L.Credit, info.amount, e.balanceAfter, L.X402Payment, Some(info.id)))
      && forall j | 0 <= j < |c.ledger.entries| && c.ledger.entries[j].source == L.X402Payment
                    && c.ledger.entries[j].sourceRef == Some(info.id) :: j == k
  }

  /** Orders and ledger agree: token_credited names the one entry of that order, merchant and amount; an
      entry implies a top-up order in confirmed or token_credited; any other order has none. */
  lemma {:induction false} OrdersAgreeWithLedger(cfg: Config, s: System, actions: seq<Action>, id: string)
    requires Initial(s) && id in Execute(cfg, s, actions).core.orders
    ensures var c := Execute(cfg, s, actions).core;
            var o := c.orders[id];
            && (o.status == TokenCredited ==> o.ledgerEntryId.Some? && NamesTheOnlyEntry(c, o.ledgerEntryId.value, o.info))
            && (Posted(c, id) ==> (o.status == Confirmed || o.status == TokenCredited)
                                  && (o.info.kind == None || o.info.kind == Some("") || o.info.kind == Some("token_topup")))
  {
    PipelineSteps.ReachableInv(cfg, s, actions);
    hide Execute;
    AgreementIn(cfg, Execute(cfg, s, actions).core, id);
  }

  lemma AgreementIn(cfg: Config, c: Core, id: string)
    requires CoreOk(cfg, c) && id in c.orders
    ensures var o := c.orders[id];
            && (o.status == TokenCredited ==> o.ledgerEntryId.Some? && NamesTheOnlyEntry(c, o.ledgerEntryId.value, o.info))
            && (Posted(c, id) ==> (o.status == Confirmed || o.status == TokenCredited) && TokenKind(o.info.kind))
  {
    hide ProofsOk, EventsOk, ResponsesOk, SettlesOk, L.Consistent, TableOk, IsTopup;
    assert OrderOk(cfg, c, id);
    PipelineSteps.TableFacts(cfg, c, id);
    if c.orders[id].status == TokenCredited {
      var info, entryId := c.orders[id].info, c.orders[id].ledgerEntryId.value;
      var k :| 0 <= k < |c.ledger.entries| && c.ledger.entries[k].id == entryId && Credits(c.ledger.entries[k], info);
      forall j | 0 <= j < |c.ledger.entries| && IsPaymentFor(c.ledger.entries[j], id) ensures j == k {
        assert c.ledger.entries[j].sourceRef == c.ledger.entries[k].sourceRef;
      }
      assert NamesTheOnlyEntry(c, entryId, info);
    }
    if Posted(c, id) { PostedAreTopups(c, id); }
  }

  lemma PostedAreTopups(c: Core, id: string)
    requires EntriesOk(c) && Posted(c, id)
    ensures id in c.orders && (c.orders[id].status == Confirmed || c.orders[id].status == TokenCredited)
    ensures TokenKind(c.orders[id].info.kind)
  {
    hide L.Consistent;
    var k :| 0 <= k < |c.ledger.entries| && c.ledger.entries[k].source == L.X402Payment && c.ledger.entries[k].sourceRef == Some(id);
    assert EntryOk(c, k);
    TopupKinds(c.orders[id].info);
  }

  lemma ReachableTable(cfg: Config, s: System, actions: seq<Action>)
    requires Initial(s)
    ensures TableOk(Execute(cfg, s, actions).core.orders)
  {
    PipelineSteps.ReachableInv(cfg, s, actions);
  }

  // ---------- one success, one settlement, one event ----------

  lemma StepAppends(cfg: Config, c: Core, t: nat, pc: Pc, env: Env)
    ensures c.responses <= Step(cfg, c, t, pc, env).0.responses && c.settles <= Step(cfg, c, t, pc, env).0.settles
  {
    hide Transition, CommitCheckout, AcceptProof, InsertProof, ProofFor, L.FindRef, L.InsertCredit, HashSeen;
  }

  lemma NextAppends(cfg: Config, s: System, a: Action)
    ensures s.core.responses <= Next(cfg, s, a).core.responses && s.core.settles <= Next(cfg, s, a).core.settles
  {
    hide Step, MayCreate;
    if a.Run? && a.task in s.tasks { StepAppends(cfg, s.core, a.task, s.tasks[a.task], a.env); }
  }

  lemma {:induction false} ExecuteAppends(cfg: Config, s: System, actions: seq<Action>)
    ensures s.core.responses <= Execute(cfg, s, actions).core.responses
    ensures s.core.settles <= Execute(cfg, s, actions).core.settles
    decreases |actions|
  {
    hide Next;
    if actions != [] {
      ExecuteAppends(cfg, s, actions[..|actions| - 1]);
      NextAppends(cfg, Execute(cfg, s, actions[..|actions| - 1]), actions[|actions| - 1]);
    }
  }

  lemma {:induction false} ExecuteSplits(cfg: Config, s: System, a: seq<Action>, b: seq<Action>)
    ensures Execute(cfg, s, a + b) == Execute(cfg, Execute(cfg, s, a), b)
    decreases |b|
  {
    hide Next;
    if b == [] {
      assert a + b == a;
    } else {
      ExecuteSplits(cfg, s, a, b[..|b| - 1]);
      assert (a + b)[..|a + b| - 1] == a + b[..|b| - 1];
    }
  }

  lemma OneMoreAction(cfg: Config, s: System, actions: seq<Action>, a: Action)
    ensures Execute(cfg, s, actions + [a]) == Next(cfg, Execute(cfg, s, actions), a)
  {
    assert (actions + [a])[..|actions + [a]| - 1] == actions;
  }

  lemma RunIsStep(cfg: Config, s: System, t: nat, e: Env)
    requires t in s.tasks
    ensures var s' := Next(cfg, s, Run(t, e));
            t in s'.tasks && (s'.core, s'.tasks[t]) == Step(cfg, s.core, t, s.tasks[t], e) && s'.tasks.Keys == s.tasks.Keys
  {
    hide Step;
  }

  /** Over all requests on both routes at most one per order is answered 200, and however the run goes on
      the hash it was answered stays the hash on the order. */
  lemma OneSuccessPerOrder(cfg: Config, s: System, actions: seq<Action>, more: seq<Action>)
    requires Initial(s)
    ensures var c, later := Execute(cfg, s, actions).core, Execute(cfg, s, actions + more).core;
            && (forall j, k | 0 <= j < k < |later.responses| :: later.responses[j].orderId != later.responses[k].orderId)
            && c.responses <= later.responses
            && (forall k | 0 <= k < |c.responses| ::
                  var r := c.responses[k]; r.orderId in later.orders && later.orders[r.orderId].txHash == Some(r.txHash))
  {
    PipelineSteps.ReachableInv(cfg, s, actions + more);
    ExecuteSplits(cfg, s, actions, more);
    ExecuteAppends(cfg, Execute(cfg, s, actions), more);
    hide Execute, OrdersOk, ProofsOk, EntriesOk, EventsOk, SettlesOk, TaskOk;
    var c, later := Execute(cfg, s, actions).core, Execute(cfg, s, actions + more).core;
    forall k | 0 <= k < |c.responses|
      ensures var r := c.responses[k]; r.orderId in later.orders && later.orders[r.orderId].txHash == Some(r.txHash)
    {
      assert later.responses[k] == c.responses[k];
      assert ResponseOk(later, k);
    }
  }

  lemma OneOrderIn(cfg: Config, c: Core, j: nat, k: nat)
    requires CoreOk(cfg, c) && j < |c.proofs| && k < |c.proofs|
    requires c.proofs[j].verified && c.proofs[k].verified && c.proofs[j].tx == c.proofs[k].tx
    ensures c.proofs[j].orderId == c.proofs[k].orderId
  {
    hide EntriesOk, EventsOk, ResponsesOk, SettlesOk, P.Accepts, P.VerifySpec;
    assert ProofOk(cfg, c, j) && ProofOk(cfg, c, k);
    var a, b, tx := c.orders[c.proofs[j].orderId], c.orders[c.proofs[k].orderId], c.proofs[j].tx;
    P.VerifySoundAndComplete(cfg.chain, tx, ExpectationOf(cfg, a.info));
    P.VerifySoundAndComplete(cfg.chain, tx, ExpectationOf(cfg, b.info));
    P.OneTransactionOneExpectation(cfg.chain, tx, ExpectationOf(cfg, a.info), ExpectationOf(cfg, b.info));
    assert OrderOk(cfg, c, c.proofs[j].orderId) && OrderOk(cfg, c, c.proofs[k].orderId);
    assert c.proofs[j].orderId != c.proofs[k].orderId ==> !Clash(a, b);
  }

  /** One signed transaction can be a verified proof of one order only, on whichever route. */
  lemma {:induction false} OneOrderPerTransaction(cfg: Config, s: System, actions: seq<Action>, j: nat, k: nat)
    requires Initial(s)
    requires var c := Execute(cfg, s, actions).core;
             j < |c.proofs| && k < |c.proofs| && c.proofs[j].verified && c.proofs[k].verified && c.proofs[j].tx == c.proofs[k].tx
    ensures var c := Execute(cfg, s, actions).core; c.proofs[j].orderId == c.proofs[k].orderId
  {
    PipelineSteps.ReachableInv(cfg, s, actions);
    hide Execute, CoreOk;
    OneOrderIn(cfg, Execute(cfg, s, actions).core, j, k);
  }

  /** The string is a persisted proof accepted for its order; on the protected route the order had not
      expired when the request was admitted. */
  ghost predicate RightlySettled(cfg: Config, c: Core, call: SettleCall) {
    && call.row < |c.proofs| && c.proofs[call.row].tx == call.tx && c.proofs[call.row].orderId == call.orderId
    && call.orderId in c.orders
    && (var info := c.orders[call.orderId].info;
        P.Accepts(cfg.chain, call.tx, P.Expectation(cfg.recipient, info.amount, info.nonce, cfg.mint)))
    && (call.route == Checkout ==> call.admittedAt.Some? && call.admittedAt.value <= c.orders[call.orderId].info.expiresAt)
  }

  /** The protected route hands a signed string to settle at most once, across all orders; /proof settles at most once per
      order; one string that both routes settle is for one order; and what is settled was verified for its order and
      persisted first. */
  lemma {:induction false} SettledOnce(cfg: Config, s: System, actions: seq<Action>)
    requires Initial(s)
    ensures var c := Execute(cfg, s, actions).core;
            && (forall j, k | 0 <= j < k < |c.settles| :: SettledApart(c.settles[j], c.settles[k]))
            && (forall k | 0 <= k < |c.settles| :: RightlySettled(cfg, c, c.settles[k]))
  {
    PipelineSteps.ReachableInv(cfg, s, actions);
    hide Execute;
    SettledOnceIn(cfg, Execute(cfg, s, actions).core);
  }

  /** Two settle calls differ in string or in route, within /proof also in order, and one string is for one order. */
  predicate SettledApart(a: SettleCall, b: SettleCall) {
    && (a.tx == b.tx ==> a.route != b.route && a.orderId == b.orderId)
    && (a.route == Legacy && b.route == Legacy ==> a.orderId != b.orderId)
  }

  lemma {:induction false} SettledOnceIn(cfg: Config, c: Core)
    requires CoreOk(cfg, c)
    ensures forall j, k | 0 <= j < k < |c.settles| :: SettledApart(c.settles[j], c.settles[k])
    ensures forall k | 0 <= k < |c.settles| :: RightlySettled(cfg, c, c.settles[k])
  {
    forall j, k | 0 <= j < k < |c.settles| ensures SettledApart(c.settles[j], c.settles[k]) {
      assert SettleOk(c, j) && SettleOk(c, k);
      if c.settles[j].tx == c.settles[k].tx { OneOrderIn(cfg, c, c.settles[j].row, c.settles[k].row); }
    }
    hide OrdersOk, EntriesOk, EventsOk, ResponsesOk, P.Accepts, P.VerifySpec;
    forall k | 0 <= k < |c.settles| ensures RightlySettled(cfg, c, c.settles[k]) {
      assert SettleOk(c, k) && ProofOk(cfg, c, c.settles[k].row);
      P.VerifySoundAndComplete(cfg.chain, c.settles[k].tx, ExpectationOf(cfg, c.orders[c.settles[k].orderId].info));
    }
  }

  /** A failed order, a confirmed one that gets no tokens, or one whose tokens are credited. */
  predicate SaysWhatHappened(o: Order, kind: EventKind) {
    || (kind == PaymentFailed && o.status == Failed)
    || (kind == PaymentConfirmed && o.status == Confirmed && !TokenKind(o.info.kind))
    || (kind == PaymentTokenCredited && o.status == TokenCredited)
  }

  /** At most one webhook event per order, and it says what became of the order. */
  lemma {:induction false} OneEventPerOrder(cfg: Config, s: System, actions: seq<Action>)
    requires Initial(s)
    ensures var c := Execute(cfg, s, actions).core;
            && (forall j, k | 0 <= j < k < |c.events| :: c.events[j].orderId != c.events[k].orderId)
            && (forall k | 0 <= k < |c.events| ::
                  c.events[k].orderId in c.orders && SaysWhatHappened(c.orders[c.events[k].orderId], c.events[k].kind))
  {
    PipelineSteps.ReachableInv(cfg, s, actions);
    hide Execute, OrdersOk, ProofsOk, EntriesOk, ResponsesOk, SettlesOk, TaskOk;
    var c := Execute(cfg, s, actions).core;
    forall k | 0 <= k < |c.events|
      ensures c.events[k].orderId in c.orders && SaysWhatHappened(c.orders[c.events[k].orderId], c.events[k].kind)
    {
      assert EventOk(c, k);
      TopupKinds(c.orders[c.events[k].orderId].info);
    }
  }

  // ---------- verify before unlock ----------

  /** A persisted proof accepted for the order's own amount and nonce. */
  ghost predicate HasAcceptedProof(cfg: Config, c: Core, info: OrderInfo) {
    exists k :: 0 <= k < |c.proofs| && c.proofs[k].orderId == info.id && c.proofs[k].verified
                && P.Accepts(cfg.chain, c.proofs[k].tx, P.Expectation(cfg.recipient, info.amount, info.nonce, cfg.mint))
  }

  /** An order that has left `created` other than by expiring has a persisted proof that is accepted for
      its own amount and nonce. */
  lemma {:induction false} VerifiedBeforeUnlock(cfg: Config, s: System, actions: seq<Action>, id: string)
    requires Initial(s) && id in Execute(cfg, s, actions).core.orders
    ensures var c := Execute(cfg, s, actions).core;
            var o := c.orders[id];
            o.status != Created && o.status != Expired ==> HasAcceptedProof(cfg, c, o.info)
  {
    PipelineSteps.ReachableInv(cfg, s, actions);
    hide Execute, EntriesOk, EventsOk, ResponsesOk, SettlesOk, TaskOk, P.Accepts, P.VerifySpec;
    var c := Execute(cfg, s, actions).core;
    assert OrderOk(cfg, c, id) && c.orders[id].info.id == id;
    if id in c.takers {
      var k := c.takers[id].row;
      assert ProofOk(cfg, c, k);
      P.VerifySoundAndComplete(cfg.chain, c.proofs[k].tx, ExpectationOf(cfg, c.orders[id].info));
    }
  }

  /** From `broadcasting` on an order has a transaction hash, which no other order has and which is the
      facilitator's answer to a settle call for this very order. */
  lemma {:induction false} HashWasSettledForTheOrder(cfg: Config, s: System, actions: seq<Action>, id: string)
    requires Initial(s) && id in Execute(cfg, s, actions).core.orders
    ensures var c := Execute(cfg, s, actions).core;
            var o := c.orders[id];
            o.status == Broadcasting || o.status == Confirmed || o.status == TokenCredited ==>
              && o.txHash.Some?
              && (forall other | other in c.orders && other != id :: c.orders[other].txHash != o.txHash)
              && exists k :: 0 <= k < |c.settles| && c.settles[k].orderId == id && c.settles[k].answer == o.txHash
  {
    PipelineSteps.ReachableInv(cfg, s, actions);
    hide Execute, ProofsOk, EntriesOk, EventsOk, ResponsesOk, SettlesOk, TaskOk;
    var c := Execute(cfg, s, actions).core;
    assert OrderOk(cfg, c, id);
    if c.orders[id].txHash.Some? {
      var k :| 0 <= k < |c.settles| && c.settles[k].orderId == id && c.settles[k].answer == Some(c.orders[id].txHash.value);
    }
    forall other | other in c.orders && other != id && c.orders[id].txHash.Some?
      ensures c.orders[other].txHash != c.orders[id].txHash
    {
      assert !Clash(c.orders[id], c.orders[other]);
    }
  }

  /** A request without X-PAYMENT leaves every existing row alone, first and last. */
  lemma ChallengeMovesNothing(cfg: Config, s: System, t: nat, asked: OrderInfo, answer: Order, between: seq<Action>, env: Env)
    requires t !in s.tasks && forall k | 0 <= k < |between| :: OtherTask(between[k], t)
    ensures var started := Next(cfg, s, StartCheckout(t, asked, answer, None));
            forall id | id in s.core.orders :: id in started.core.orders && started.core.orders[id] == s.core.orders[id]
    ensures var started := Next(cfg, s, StartCheckout(t, asked, answer, None));
            t in started.tasks ==>
              var before := Execute(cfg, started, between);
              var after := Next(cfg, before, Run(t, env));
              after.core == before.core && t in after.tasks && after.tasks[t] == Done
  {
    hide Execute, MayReturn, Step;
    var started := Next(cfg, s, StartCheckout(t, asked, answer, None));
    if t in started.tasks {
      OthersLeaveTask(cfg, started, between, t);
      ChallengeStep(cfg, Execute(cfg, started, between).core, t, answer, env);
    }
  }

  lemma ChallengeStep(cfg: Config, c: Core, t: nat, o: Order, env: Env)
    ensures Step(cfg, c, t, CheckoutFetched(o, None), env) == (c, Done)
  {
  }

  predicate OtherTask(a: Action, t: nat) {
    match a
    case Run(u, _) => u != t
    case Die(u) => u != t
    case LoseReply(u) => u != t
    case _ => true
  }

  lemma {:induction false} OthersLeaveTask(cfg: Config, s: System, actions: seq<Action>, t: nat)
    requires t in s.tasks && forall k | 0 <= k < |actions| :: OtherTask(actions[k], t)
    ensures t in Execute(cfg, s, actions).tasks && Execute(cfg, s, actions).tasks[t] == s.tasks[t]
    decreases |actions|
  {
    hide Step, MayCreate;
    if actions != [] {
      assert OtherTask(actions[|actions| - 1], t);
      OthersLeaveTask(cfg, s, actions[..|actions| - 1], t);
    }
  }

  /** An order the confirmers have closed stands as WEA's word about its stored hash says, and tokens are
      only ever marked credited on such an order. */
  lemma {:induction false} ChainDecides(cfg: Config, s: System, actions: seq<Action>, id: string)
    requires Initial(s) && id in Execute(cfg, s, actions).core.orders
    ensures var c := Execute(cfg, s, actions).core;
            var o := c.orders[id];
            && (id in c.closers ==> var wea := c.closers[id].answer;
                  && o.txHash == Some(c.closers[id].txHash)
                  && (o.status == Confirmed || o.status == TokenCredited || o.status == Failed)
                  && (o.status != Failed ==> wea.err == None && (wea.status == "confirmed" || wea.status == "finalized"))
                  && (o.status == Failed ==> wea.status == "failed" || (wea.status != "pending" && wea.err != None)))
            && (o.status == TokenCredited || (o.status == Failed && o.txHash.Some?) ==> id in c.closers)
  {
    PipelineSteps.ReachableInv(cfg, s, actions);
    hide Execute, ProofsOk, EntriesOk, EventsOk, ResponsesOk, SettlesOk, TaskOk;
    assert OrderOk(cfg, Execute(cfg, s, actions).core, id);
  }

  /** A confirmer polls WEA about the hash that is on the order, however stale its selection is. */
  lemma {:induction false} ConfirmerPollsTheStoredHash(cfg: Config, s: System, actions: seq<Action>, t: nat)
    requires Initial(s) && t in Execute(cfg, s, actions).tasks && Execute(cfg, s, actions).tasks[t].Selected?
    ensures var s' := Execute(cfg, s, actions);
            var id := s'.tasks[t].orderId;
            id in s'.core.orders && s'.core.orders[id].txHash == Some(s'.tasks[t].txHash)
  {
    PipelineSteps.ReachableInv(cfg, s, actions);
    hide Execute, CoreOk;
    var s' := Execute(cfg, s, actions);
    assert TaskOk(s'.core, t, s'.tasks[t]);
  }
}
