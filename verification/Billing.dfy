/** Prices, the worst-case estimate of the pre-flight check, the settled cost, and the chat call around them. */
module Billing {
  import opened Wrappers
  import opened Ledger

  // AI Token per 1000 model tokens.
  datatype Price = Price(inputPer1k: nat, outputPer1k: nat)

  const PRICING: map<string, Price> := map[
    "claude-opus-4-7" := Price(15_000, 75_000),
    "claude-sonnet-4-6" := Price(3_000, 15_000),
    "claude-haiku-4-5" := Price(800, 4_000),
    "gpt-5.5" := Price(5_000, 30_000),
    "gpt-5.5-2026-04-23" := Price(5_000, 30_000),
    "gpt-4.1" := Price(10_000, 30_000),
    "gpt-4.1-mini" := Price(2_000, 6_000),
    "grok-4" := Price(8_000, 24_000),
    "gemini-2.5-pro" := Price(8_000, 24_000)
  ]
  const DEFAULT_PRICE := Price(5_000, 15_000)

  function PriceFor(model: string): Price {
    if model in PRICING then PRICING[model] else DEFAULT_PRICE
  }

  datatype Request = Request(model: string, turns: seq<string>, system: Option<string>, maxTokens: nat)

  datatype Usage = Usage(promptTokens: nat, completionTokens: nat, cachedInputTokens: nat)

  function Max(a: int, b: int): int {
    if a < b then b else a
  }

  function Chars(turns: seq<string>): nat {
    if turns == [] then 0 else |turns[0]| + Chars(turns[1..])
  }

  function RequestChars(req: Request): nat {
    Chars(req.turns) + if req.system.Some? then |req.system.value| else 0
  }

  function PromptEstimate(chars: nat): nat {
    Max(1, chars / 4)
  }

  /** Price of so many model tokens, in thousandths of an AI Token. */
  function Milli(p: Price, input: nat, output: nat): nat {
    input * p.inputPer1k + output * p.outputPer1k
  }

  function EstimateCost(model: string, chars: nat, maxOutput: nat): nat {
    Milli(PriceFor(model), PromptEstimate(chars), maxOutput) / 1000
  }

  function EstimateFromRequest(req: Request): nat {
    EstimateCost(req.model, RequestChars(req), req.maxTokens)
  }

  function Billable(u: Usage): nat {
    Max(0, u.promptTokens - u.cachedInputTokens)
  }

  function SettleCost(model: string, u: Usage): nat {
    Max(1, Milli(PriceFor(model), Billable(u), u.completionTokens) / 1000)
  }

  /** Without a provider key: the canned reply quotes the last user message, up to 80 characters. */
  function StubReply(model: string, lastUser: string): string {
    "(stub \U{2014} " + model + "'s API key not configured) you said: " + if |lastUser| <= 80 then lastUser else lastUser[..80]
  }

  function StubUsage(req: Request, lastUser: string): Usage {
    Usage(Chars(req.turns) / 4, Max(8, |StubReply(req.model, lastUser)| / 4), 0)
  }

  /** A flat charge over it. */
  function StubCost(u: Usage): nat {
    Max(1, (u.promptTokens + u.completionTokens) * 5)
  }

  // ---------- the chat call: two transactions with the provider call between ----------

  datatype ChatError = InsufficientBalance(required: int, available: int)

  method Preflight(ledger: LedgerService, merchant: string, req: Request) returns (r: Result<nat, ChatError>)
    ensures r == if BalanceOf(ledger.Value(), merchant) < EstimateFromRequest(req)
                 then Err(InsufficientBalance(EstimateFromRequest(req), BalanceOf(ledger.Value(), merchant)))
                 else Ok(EstimateFromRequest(req))
  {
    var estimated := EstimateFromRequest(req);
    var current := ledger.GetBalance(merchant);
    if current < estimated {
      return Err(InsufficientBalance(estimated, current));
    }
    r := Ok(estimated);
  }

  /** Settles the provider's usage, or the canned reply's when there is no provider key: a refusal leaves the ledger as it
      was and the request unbilled. */
  method Settle(ledger: LedgerService, merchant: string, req: Request, lastUser: string, reported: Option<Usage>)
    returns (r: Result<Entry, ChatError>)
    modifies ledger
    ensures var cost := if reported.Some? then SettleCost(req.model, reported.value) else StubCost(StubUsage(req, lastUser));
            var (after, answer) := DebitSpec(old(ledger.Value()), merchant, cost, AiCall, None);
            && ledger.Value() == after
            && (r.Ok? <==> answer.Ok?) && (r.Ok? ==> r.value == answer.value)
            && (r.Err? ==> r.error == InsufficientBalance(cost, BalanceOf(after, merchant)) && after == old(ledger.Value()))
  {
    var cost: nat;
    if reported.Some? {
      cost := SettleCost(req.model, reported.value);
    } else {
      cost := StubCost(StubUsage(req, lastUser));
    }
    var entry := ledger.DebitMerchant(merchant, cost, AiCall, None);
    match entry
    case Ok(e) => r := Ok(e);
    case Err(e) => r := Err(InsufficientBalance(e.required, e.available));
  }

  // ---------- is the estimate a worst case? ----------

  lemma MoreTokensCostMore(p: Price, input: nat, output: nat, moreInput: nat, moreOutput: nat)
    requires input <= moreInput && output <= moreOutput
    ensures Milli(p, input, output) <= Milli(p, moreInput, moreOutput)
  {
    assert input * p.inputPer1k <= moreInput * p.inputPer1k;
    assert output * p.outputPer1k <= moreOutput * p.outputPer1k;
  }

  lemma EstimateIsPositive(model: string, chars: nat, maxOutput: nat)
    requires maxOutput >= 1
    ensures EstimateCost(model, chars, maxOutput) >= 4
  {
    MoreTokensCostMore(PriceFor(model), 1, 1, PromptEstimate(chars), maxOutput);
    assert Milli(PriceFor(model), 1, 1) >= 4800;
  }

  /** The estimate covers every usage of at most `bound` billable prompt tokens and `maxOutput` completion tokens. */
  ghost predicate Covers(model: string, chars: nat, maxOutput: nat, bound: nat) {
    forall u: Usage | Billable(u) <= bound && u.completionTokens <= maxOutput ::
      SettleCost(model, u) <= EstimateCost(model, chars, maxOutput)
  }

  /** For every model the pre-flight estimate is a worst case for prompts of up to `bound` billable tokens exactly
      when the tokens beyond the quarter-of-the-characters rule fit in what the estimate's division rounds away. */
  lemma EstimateIsWorstCaseIff(model: string, chars: nat, maxOutput: nat, bound: nat)
    requires maxOutput >= 1
    ensures Covers(model, chars, maxOutput, bound)
       <==> (bound - PromptEstimate(chars)) * PriceFor(model).inputPer1k
            < 1000 - Milli(PriceFor(model), PromptEstimate(chars), maxOutput) % 1000
  {
    var p := PriceFor(model);
    var estimated := Milli(p, PromptEstimate(chars), maxOutput);
    var worst := Milli(p, bound, maxOutput);
    EstimateIsPositive(model, chars, maxOutput);
    assert (worst as int) - estimated == (bound - PromptEstimate(chars)) * p.inputPer1k;
    DivisionKeepsOrderIff(worst, estimated);
    var widest := Usage(bound, maxOutput, 0);
    assert Billable(widest) == bound;
    if worst / 1000 <= estimated / 1000 {
      forall u: Usage | Billable(u) <= bound && u.completionTokens <= maxOutput
        ensures SettleCost(model, u) <= EstimateCost(model, chars, maxOutput)
      {
        MoreTokensCostMore(p, Billable(u), u.completionTokens, bound, maxOutput);
      }
    } else {
      assert SettleCost(model, widest) > EstimateCost(model, chars, maxOutput);
    }
  }

  lemma DivisionKeepsOrderIff(a: nat, b: nat)
    ensures a / 1000 <= b / 1000 <==> a - b < 1000 - b % 1000
  {
  }

  function Joined(turns: seq<string>): string {
    if turns == [] then "" else turns[0] + Joined(turns[1..])
  }

  lemma {:induction false} JoinedChars(turns: seq<string>)
    ensures |Joined(turns)| == Chars(turns)
  {
    if turns != [] { JoinedChars(turns[1..]); }
  }

  /** All the text of a request, the system prompt too. */
  function Text(req: Request): string {
    Joined(req.turns) + if req.system.Some? then req.system.value else ""
  }

  /** Every price but one charges whole AI Tokens per prompt token: there the estimate covers all usages of up to `bound`
      prompt tokens exactly when these are one, or at most a quarter of the request's characters. */
  lemma QuarterRuleForRequests(req: Request, bound: nat)
    requires req.maxTokens >= 1 && req.model != "claude-haiku-4-5"
    ensures (forall u: Usage | u.promptTokens - u.cachedInputTokens <= bound && u.completionTokens <= req.maxTokens ::
               SettleCost(req.model, u) <= EstimateFromRequest(req))
       <==> bound <= 1 || 4 * bound <= |Text(req)|
  {
    JoinedChars(req.turns);
    QuarterRuleIsExact(req.model, RequestChars(req), req.maxTokens, bound);
    hide SettleCost, EstimateCost;
    assert forall u: Usage :: Billable(u) <= bound <==> u.promptTokens - u.cachedInputTokens <= bound;
  }

  /** A thousand prompt tokens, and a thousand completion tokens, of each model. */
  lemma PricesPerThousand(model: string)
    ensures var input, output := SettleCost(model, Usage(1000, 0, 0)), SettleCost(model, Usage(0, 1000, 0));
            (input, output) == match model
              case "claude-opus-4-7" => (15_000, 75_000)
              case "claude-sonnet-4-6" => (3_000, 15_000)
              case "claude-haiku-4-5" => (800, 4_000)
              case "gpt-5.5" => (5_000, 30_000)
              case "gpt-5.5-2026-04-23" => (5_000, 30_000)
              case "gpt-4.1" => (10_000, 30_000)
              case "gpt-4.1-mini" => (2_000, 6_000)
              case "grok-4" => (8_000, 24_000)
              case "gemini-2.5-pro" => (8_000, 24_000)
              case _ => (5_000, 15_000)
  {
  }

  /** The canned reply is charged five AI Tokens for every four characters of the conversation, and of the reply: 45 of its
      own, the model's name, and at most 80 of the user. */
  lemma StubCharge(req: Request, lastUser: string)
    ensures StubCost(StubUsage(req, lastUser))
         == 5 * (|Joined(req.turns)| / 4 + (45 + |req.model| + (if |lastUser| <= 80 then |lastUser| else 80)) / 4)
  {
    JoinedChars(req.turns);
    assert |StubReply(req.model, lastUser)| == 45 + |req.model| + if |lastUser| <= 80 then |lastUser| else 80;
  }

  /** For whole-token prices the rule itself is the exact bound. */
  lemma QuarterRuleIsExact(model: string, chars: nat, maxOutput: nat, bound: nat)
    requires maxOutput >= 1 && model != "claude-haiku-4-5"
    ensures Covers(model, chars, maxOutput, bound) <==> bound <= PromptEstimate(chars)
  {
    var p := PriceFor(model);
    assert p.inputPer1k % 1000 == 0 && p.outputPer1k % 1000 == 0 && p.inputPer1k >= 2000;
    var over := bound - PromptEstimate(chars);
    EstimateIsWorstCaseIff(model, chars, maxOutput, bound);
    WholeTokens(p, PromptEstimate(chars), maxOutput);
    OverTheRule(over, p.inputPer1k);
  }

  lemma WholeTokens(p: Price, input: nat, output: nat)
    requires p.inputPer1k % 1000 == 0 && p.outputPer1k % 1000 == 0
    ensures Milli(p, input, output) % 1000 == 0
  {
    var i, o := p.inputPer1k / 1000, p.outputPer1k / 1000;
    assert input * p.inputPer1k == 1000 * (input * i) && output * p.outputPer1k == 1000 * (output * o);
  }

  lemma OverTheRule(over: int, price: nat)
    requires price >= 2000
    ensures over * price < 1000 <==> over <= 0
  {
    if over > 0 { assert over * price >= price; } else { assert over * price <= 0; }
  }

  /** The bound the pre-flight relies on is enough for every model, priced or not. */
  lemma EstimateCoversQuarterRule(req: Request, u: Usage)
    requires req.maxTokens >= 1 && u.completionTokens <= req.maxTokens
    requires Billable(u) <= PromptEstimate(RequestChars(req))
    ensures SettleCost(req.model, u) <= EstimateFromRequest(req)
  {
    var chars, bound := RequestChars(req), PromptEstimate(RequestChars(req));
    EstimateIsWorstCaseIff(req.model, chars, req.maxTokens, bound);
    assert (bound - bound) * PriceFor(req.model).inputPer1k == 0;
  }

  // ---------- from the pre-flight to the debit ----------

  /** What other requests may do to the ledger meanwhile: anything but a debit of this merchant. */
  ghost predicate NoDebitOf(ops: seq<Op>, merchant: string) {
    forall op <- ops :: op.DebitOp? ==> op.merchant != merchant
  }

  lemma {:induction false} BalanceOnlyGrows(s: State, ops: seq<Op>, merchant: string)
    requires NoDebitOf(ops, merchant)
    ensures BalanceOf(Run(s, ops), merchant) >= BalanceOf(s, merchant)
    decreases |ops|
  {
    if ops != [] {
      var last := ops[|ops| - 1];
      BalanceOnlyGrows(s, ops[..|ops| - 1], merchant);
      assert last in ops;
    }
  }

  /** A passed pre-flight carries through any interleaved credits, other merchants' debits and rollbacks: the debit
      succeeds, and takes exactly the settled cost. */
  lemma {:induction false} PassedPreflightIsBilled(s: State, between: seq<Op>, merchant: string, req: Request, u: Usage)
    requires BalanceOf(s, merchant) >= EstimateFromRequest(req) && NoDebitOf(between, merchant)
    requires req.maxTokens >= 1 && u.completionTokens <= req.maxTokens
    requires Billable(u) <= PromptEstimate(RequestChars(req))
    ensures var later := Run(s, between);
            var (after, answer) := DebitSpec(later, merchant, SettleCost(req.model, u), AiCall, None);
            && answer.Ok?
            && BalanceOf(after, merchant) == BalanceOf(later, merchant) - SettleCost(req.model, u)
                                          >= BalanceOf(s, merchant) - EstimateFromRequest(req)
  {
    EstimateCoversQuarterRule(req, u);
    BalanceOnlyGrows(s, between, merchant);
  }

  const EMPTY_LEDGER := State([], map[], 1, {})

  ghost predicate DebitSucceeds(before: seq<Op>, between: seq<Op>, merchant: string, cost: nat) {
    DebitSpec(Run(Run(EMPTY_LEDGER, before), between), merchant, cost, AiCall, None).1.Ok?
  }

  /** On every ledger that can come about, a call whose pre-flight passed is billed this cost, whatever runs in between
      but a debit of the same merchant. */
  ghost predicate AlwaysBilled(req: Request, cost: nat) {
    forall before, between, merchant |
      BalanceOf(Run(EMPTY_LEDGER, before), merchant) >= EstimateFromRequest(req) && NoDebitOf(between, merchant) ::
      DebitSucceeds(before, between, merchant, cost)
  }

  /** A merchant is registered and tops up. */
  function TopUp(amount: nat): seq<Op> {
    [RegisterOp("m"), CreditOp("m", amount, X402Payment, Some("pmt"))]
  }

  /** Any balance can come about. */
  lemma ToppedUp(amount: nat)
    requires amount > 0
    ensures BalanceOf(Run(EMPTY_LEDGER, TopUp(amount)), "m") == amount
  {
    var register, op := RegisterOp("m"), CreditOp("m", amount, X402Payment, Some("pmt"));
    assert [register, op][..1] == [register] && [register][..0] == [] && Run(EMPTY_LEDGER, []) == EMPTY_LEDGER;
    assert Run(EMPTY_LEDGER, [register]) == Apply(EMPTY_LEDGER, register);
    assert Run(EMPTY_LEDGER, [register, op]) == Apply(Apply(EMPTY_LEDGER, register), op);
  }

  lemma AlwaysBilledIffCovered(req: Request, cost: nat)
    requires req.maxTokens >= 1 && cost >= 1
    ensures AlwaysBilled(req, cost) <==> cost <= EstimateFromRequest(req)
  {
    var estimated := EstimateFromRequest(req);
    EstimateIsPositive(req.model, RequestChars(req), req.maxTokens);
    if cost <= estimated {
      forall before, between, merchant |
        BalanceOf(Run(EMPTY_LEDGER, before), merchant) >= estimated && NoDebitOf(between, merchant)
        ensures DebitSucceeds(before, between, merchant, cost)
      {
        BalanceOnlyGrows(Run(EMPTY_LEDGER, before), between, merchant);
      }
    } else {
      var before := TopUp(estimated);
      ToppedUp(estimated);
      var s := Run(EMPTY_LEDGER, before);
      assert Run(s, []) == s;
      assert NoDebitOf([], "m") && !DebitSucceeds(before, [], "m", cost);
    }
  }

  /** With a provider: every usage of at most `bound` billable prompt tokens and `maxTokens` completion tokens is billed after
      a passed pre-flight, exactly when the tokens beyond the quarter-of-the-characters rule fit in the dropped remainder. */
  lemma PreflightSufficesIff(req: Request, bound: nat)
    requires req.maxTokens >= 1
    ensures (forall u: Usage | Billable(u) <= bound && u.completionTokens <= req.maxTokens :: AlwaysBilled(req, SettleCost(req.model, u)))
       <==> (bound - PromptEstimate(RequestChars(req))) * PriceFor(req.model).inputPer1k
            < 1000 - Milli(PriceFor(req.model), PromptEstimate(RequestChars(req)), req.maxTokens) % 1000
  {
    hide AlwaysBilled;
    EstimateIsWorstCaseIff(req.model, RequestChars(req), req.maxTokens, bound);
    forall u: Usage ensures AlwaysBilled(req, SettleCost(req.model, u)) <==> SettleCost(req.model, u) <= EstimateFromRequest(req) {
      AlwaysBilledIffCovered(req, SettleCost(req.model, u));
    }
  }

  /** Without one: the canned reply's flat charge is billed after a passed pre-flight exactly when five AI Tokens for each
      of its tokens are within the model's price for the request. */
  lemma StubIsBilledIff(req: Request, lastUser: string)
    requires req.maxTokens >= 1
    ensures var u := StubUsage(req, lastUser);
            AlwaysBilled(req, StubCost(u))
            <==> 5000 * (u.promptTokens + u.completionTokens)
                 <= Milli(PriceFor(req.model), PromptEstimate(RequestChars(req)), req.maxTokens)
  {
    AlwaysBilledIffCovered(req, StubCost(StubUsage(req, lastUser)));
  }

  /** For every model but the three with a prompt price below 5000 the prompt's own share is always covered: there it is
      enough that the completion's price covers the reply. */
  lemma StubIsBilledAtFullPrices(req: Request, lastUser: string)
    requires req.maxTokens >= 1 && PriceFor(req.model).inputPer1k >= 5000
    requires 5000 * StubUsage(req, lastUser).completionTokens <= req.maxTokens * PriceFor(req.model).outputPer1k
    ensures AlwaysBilled(req, StubCost(StubUsage(req, lastUser)))
  {
    hide AlwaysBilled;
    var p, n := PriceFor(req.model), StubUsage(req, lastUser).promptTokens;
    assert n <= PromptEstimate(RequestChars(req));
    assert 5000 * n <= PromptEstimate(RequestChars(req)) * p.inputPer1k by {
      assert n * 5000 <= n * p.inputPer1k <= PromptEstimate(RequestChars(req)) * p.inputPer1k;
    }
    StubIsBilledIff(req, lastUser);
  }

  /** The conditions are needed: after a top-up of exactly the estimate, one prompt token over the rule or one debit in
      between, and a call that passed the pre-flight goes unbilled. */
  lemma UnbilledCalls()
    ensures var req := Request("gpt-4.1", ["hola"], None, 1);
            var s := Run(EMPTY_LEDGER, TopUp(EstimateFromRequest(req)));
            && DebitSpec(s, "m", SettleCost(req.model, Usage(2, 1, 0)), AiCall, None).1 == Err(Insufficient(50, 40))
            && DebitSpec(Run(s, [DebitOp("m", 1, AiCall, None)]), "m", SettleCost(req.model, Usage(1, 1, 0)), AiCall, None).1
               == Err(Insufficient(40, 39))
  {
    ShortTurnCosts();
    hide EstimateFromRequest, SettleCost;
    ToppedUp(40);
    var s := Run(EMPTY_LEDGER, TopUp(40));
    hide TopUp;
    var op := DebitOp("m", 1, AiCall, None);
    assert [op][..0] == [] && Run(s, []) == s;
    assert Run(s, [op]) == Apply(s, op);
  }

  lemma ShortTurnCosts()
    ensures EstimateFromRequest(Request("gpt-4.1", ["hola"], None, 1)) == 40
    ensures SettleCost("gpt-4.1", Usage(2, 1, 0)) == 50 && SettleCost("gpt-4.1", Usage(1, 1, 0)) == 40
  {
    assert Chars(["hola"]) == 4 + Chars([]);
    assert PriceFor("gpt-4.1") == Price(10_000, 30_000);
  }

  /** Nor is the stub charge always covered: one short turn to the cheapest model is estimated at 4 and charged 85. */
  lemma UnbilledStub()
    ensures var req := Request("claude-haiku-4-5", ["hola"], None, 1);
            EstimateFromRequest(req) == 4 && StubCost(StubUsage(req, "hola")) == 85 && !AlwaysBilled(req, 85)
  {
    var req := Request("claude-haiku-4-5", ["hola"], None, 1);
    assert Chars(["hola"]) == 4 + Chars([]);
    assert RequestChars(req) == 4 && PromptEstimate(4) == 1;
    assert |StubReply("claude-haiku-4-5", "hola")| == 65;
    AlwaysBilledIffCovered(req, 85);
  }

  // ---------- what rounding does over many calls ----------

  datatype Call = Call(model: string, usage: Usage)

  /** What a call is worth: prompt tokens not served from a cache at the input price, completion tokens at the output price. */
  function ExactMilli(c: Call): nat {
    var p, u := PriceFor(c.model), c.usage;
    (if u.cachedInputTokens < u.promptTokens then (u.promptTokens - u.cachedInputTokens) * p.inputPer1k else 0)
    + u.completionTokens * p.outputPer1k
  }

  function Billed(calls: seq<Call>): nat {
    if calls == [] then 0 else Billed(calls[1..]) + SettleCost(calls[0].model, calls[0].usage)
  }

  function Exact(calls: seq<Call>): nat {
    if calls == [] then 0 else Exact(calls[1..]) + ExactMilli(calls[0])
  }

  /** Calls cheaper than one AI Token, which are charged one all the same. */
  function Cheap(calls: seq<Call>): nat {
    if calls == [] then 0 else Cheap(calls[1..]) + if ExactMilli(calls[0]) < 1000 then 1 else 0
  }

  /** Over n calls, of any models, less than n AI Tokens are rounded away, and at most one token is added per call
      that was worth less than one. */
  lemma {:induction false} RoundingOverManyCalls(calls: seq<Call>)
    ensures calls != [] ==> 1000 * Billed(calls) > Exact(calls) - 1000 * |calls|
    ensures 1000 * Billed(calls) <= Exact(calls) + 1000 * Cheap(calls)
    ensures Cheap(calls) == 0 ==> 1000 * Billed(calls) <= Exact(calls)
    ensures Billed(calls) >= |calls|
  {
    if calls != [] {
      RoundingOverManyCalls(calls[1..]);
      if calls[1..] == [] { assert |calls| == 1; }
    }
  }
}
