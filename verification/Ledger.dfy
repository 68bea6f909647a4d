/** The token service's append-only ledger with its cached balances. */
module Ledger {
  import opened Wrappers

  datatype EntryType = Credit | Debit
  datatype Source = X402Payment | Refund | AdminAdjust | Promo | Correction | AiCall

  datatype Entry = Entry(id: nat, merchant: string, kind: EntryType, amount: nat, balanceAfter: int,
                         source: Source, sourceRef: Option<string>)

  // The cache row; lastEntryId is NULL until the first entry.
  datatype Balance = Balance(token: int, lastEntryId: Option<nat>)

  // `nextId` is the auto-increment counter of the entry table; `merchants` holds the keys a balance row may refer to.
  datatype State = State(entries: seq<Entry>, balances: map<string, Balance>, nextId: nat, merchants: set<string>)

  // UnknownMerchant is the IntegrityError of the foreign key from a new balance row to its merchant.
  datatype LedgerError = NotPositive | Insufficient(required: int, available: int) | UnknownMerchant

  function BalanceOf(s: State, merchant: string): int {
    if merchant in s.balances then s.balances[merchant].token else 0
  }

  /** The entry the idempotency check finds. */
  function FindRef(entries: seq<Entry>, source: Source, ref: string): (r: Option<Entry>)
    ensures r.None? <==> forall k | 0 <= k < |entries| :: !(entries[k].source == source && entries[k].sourceRef == Some(ref))
    ensures r.Some? ==> r.value in entries && r.value.source == source && r.value.sourceRef == Some(ref)
  {
    if entries == [] then None
    else if entries[0].source == source && entries[0].sourceRef == Some(ref) then Some(entries[0])
    else
      assert forall k | 1 <= k < |entries| :: entries[k] == entries[1..][k - 1];
      FindRef(entries[1..], source, ref)
  }

  function Signed(kind: EntryType, amount: nat): int {
    var a: int := amount;
    if kind.Credit? then a else -a
  }

  /** The entry a write appends, and the state with it. */
  function NewEntry(s: State, merchant: string, kind: EntryType, amount: nat, source: Source, ref: Option<string>): Entry {
    Entry(s.nextId, merchant, kind, amount,
          BalanceOf(s, merchant) + Signed(kind, amount), source, ref)
  }

  function Append(s: State, e: Entry): State {
    State(s.entries + [e], s.balances[e.merchant := Balance(e.balanceAfter, Some(e.id))], s.nextId + 1, s.merchants)
  }

  predicate Known(s: State, merchant: string) {
    merchant in s.balances || merchant in s.merchants
  }

  function PostCredit(s: State, merchant: string, amount: nat, source: Source, ref: Option<string>): (State, Entry) {
    var e := NewEntry(s, merchant, Credit, amount, source, ref);
    (Append(s, e), e)
  }

  /** The locked part of a credit: what happens once the idempotency check has found nothing. */
  function InsertCredit(s: State, merchant: string, amount: nat, source: Source, ref: Option<string>): (State, Result<Entry, LedgerError>) {
    if !Known(s, merchant) then (s, Err(UnknownMerchant))
    else
      var (s', e) := PostCredit(s, merchant, amount, source, ref);
      (s', Ok(e))
  }

  function CreditSpec(s: State, merchant: string, amount: int, source: Source, ref: Option<string>): (State, Result<Entry, LedgerError>) {
    if amount <= 0 then (s, Err(NotPositive))
    else if ref.Some? && FindRef(s.entries, source, ref.value).Some? then
      (s, Ok(FindRef(s.entries, source, ref.value).value))
    else InsertCredit(s, merchant, amount, source, ref)
  }

  function DebitSpec(s: State, merchant: string, amount: int, source: Source, ref: Option<string>): (State, Result<Entry, LedgerError>) {
    if amount <= 0 then (s, Err(NotPositive))
    else if BalanceOf(s, merchant) < amount then (s, Err(Insufficient(amount, BalanceOf(s, merchant))))
    else
      var e := NewEntry(s, merchant, Debit, amount, source, ref);
      (Append(s, e), Ok(e))
  }

  /** An entry of this source names the reference. */
  predicate Posted(entries: seq<Entry>, source: Source, ref: Option<string>) {
    ref.Some? && exists k :: 0 <= k < |entries| && entries[k].source == source && entries[k].sourceRef == ref
  }

  class LedgerService {
    var entries: seq<Entry>
    var balances: map<string, Balance>
    var nextId: nat
    var merchants: set<string>

    function Value(): State
      reads this
    {
      State(entries, balances, nextId, merchants)
    }

    constructor (seeded: map<string, Balance>, merchants: set<string>)
      requires IsSeed(seeded, merchants)
      ensures Consistent(Value()) && Value() == State([], seeded, 1, merchants)
    {
      entries, balances, nextId, this.merchants := [], seeded, 1, merchants;
    }

    method GetBalance(merchant: string) returns (b: int)
      ensures b == BalanceOf(Value(), merchant)
    {
      if merchant in balances {
        return balances[merchant].token;
      }
      b := 0;
    }

    /** The locked half of a credit: read or create the balance row, append the entry, update the row. */
    method LockAndInsert(merchant: string, amount: nat, source: Source, ref: Option<string>) returns (r: Result<Entry, LedgerError>)
      modifies this
      ensures (Value(), r) == InsertCredit(old(Value()), merchant, amount, source, ref)
    {
      var current := 0;
      if merchant !in balances {
        if merchant !in merchants {
          return Err(UnknownMerchant);
        }
        balances := balances[merchant := Balance(0, None)];
      } else {
        current := balances[merchant].token;
      }
      var newBalance := current + amount;
      var e := Entry(nextId, merchant, Credit, amount, newBalance, source, ref);
      entries, nextId := entries + [e], nextId + 1;
      balances := balances[merchant := Balance(newBalance, Some(e.id))];
      assert balances == old(balances)[merchant := Balance(newBalance, Some(e.id))];
      r := Ok(e);
    }

    method CreditMerchant(merchant: string, amount: int, source: Source, ref: Option<string>)
      returns (r: Result<Entry, LedgerError>)
      modifies this
      ensures (Value(), r) == CreditSpec(old(Value()), merchant, amount, source, ref)
      ensures r == Err(NotPositive) <==> amount <= 0
      ensures r == Err(UnknownMerchant) <==>
                amount > 0 && merchant !in old(balances) && merchant !in old(merchants) && old(!Posted(entries, source, ref))
      ensures r.Err? || old(Posted(entries, source, ref)) ==> Value() == old(Value())
      ensures r.Ok? && old(Posted(entries, source, ref)) ==>
                r.value in old(entries) && r.value.source == source && r.value.sourceRef == ref
      ensures r.Ok? && old(!Posted(entries, source, ref)) ==>
                var was := if merchant in old(balances) then old(balances)[merchant].token else 0;
                && r.value == Entry(old(nextId), merchant, Credit, amount, was + amount, source, ref)
                && Value() == State(old(entries) + [r.value], old(balances)[merchant := Balance(was + amount, Some(old(nextId)))],
                                    old(nextId) + 1, old(merchants))
    {
      if amount <= 0 {
        return Err(NotPositive);
      }
      if ref.Some? {
        var existing := FindRef(entries, source, ref.value);
        if existing.Some? {
          return Ok(existing.value);
        }
      }
      r := LockAndInsert(merchant, amount, source, ref);
    }

    method DebitMerchant(merchant: string, amount: int, source: Source, ref: Option<string>)
      returns (r: Result<Entry, LedgerError>)
      modifies this
      ensures (Value(), r) == DebitSpec(old(Value()), merchant, amount, source, ref)
      ensures r.Ok? ==> merchant in old(balances)
      ensures var was := if merchant in old(balances) then old(balances)[merchant].token else 0;
              if amount <= 0 then r == Err(NotPositive) && Value() == old(Value())
              else if was < amount then r == Err(Insufficient(amount, was)) && Value() == old(Value())
              else
                && r == Ok(Entry(old(nextId), merchant, Debit, amount, was - amount, source, ref))
                && Value() == State(old(entries) + [r.value], old(balances)[merchant := Balance(was - amount, Some(old(nextId)))],
                                    old(nextId) + 1, old(merchants))
    {
      if amount <= 0 {
        return Err(NotPositive);
      }
      var current := if merchant in balances then balances[merchant].token else 0;
      var newBalance := current - amount;
      if newBalance < 0 {
        return Err(Insufficient(amount, current));
      }
      var e := Entry(nextId, merchant, Debit, amount, newBalance, source, ref);
      entries, nextId := entries + [e], nextId + 1;
      balances := balances[merchant := Balance(newBalance, Some(e.id))];
      r := Ok(e);
    }
  }

  // ---------- the history and the cache ----------

  /** Credits minus debits of one merchant. */
  function Net(entries: seq<Entry>, merchant: string): int {
    if entries == [] then 0
    else
      var last := entries[|entries| - 1];
      Net(entries[..|entries| - 1], merchant)
      + if last.merchant == merchant then Signed(last.kind, last.amount) else 0
  }

  /** Id of the merchant's last entry. */
  function LastId(entries: seq<Entry>, merchant: string): Option<nat> {
    if entries == [] then None
    else if entries[|entries| - 1].merchant == merchant then Some(entries[|entries| - 1].id)
    else LastId(entries[..|entries| - 1], merchant)
  }

  /** Ids grow; every entry records the running balance of its merchant, never negative; the cache
      agrees with the whole history. */
  ghost predicate Consistent(s: State) {
    && s.balances.Keys <= s.merchants
    && (forall k | 0 <= k < |s.entries| :: s.entries[k].id < s.nextId)
    && (forall j, k | 0 <= j < k < |s.entries| :: s.entries[j].id < s.entries[k].id)
    && (forall k | 0 <= k < |s.entries| :: RunningBalance(s.entries, k))
    && (forall k | 0 <= k < |s.entries| :: s.entries[k].merchant in s.balances)
    && (forall m | m in s.balances :: CacheAgrees(s, m))
  }

  /** Entry k holds its merchant's credits minus debits up to and including itself. */
  ghost predicate RunningBalance(entries: seq<Entry>, k: nat)
    requires k < |entries|
  {
    entries[k].balanceAfter == Net(entries[..k + 1], entries[k].merchant) >= 0
  }

  ghost predicate CacheAgrees(s: State, m: string)
    requires m in s.balances
  {
    s.balances[m] == Balance(Net(s.entries, m), LastId(s.entries, m)) && Net(s.entries, m) >= 0
  }

  lemma {:induction false} NoEntriesNoNet(entries: seq<Entry>, merchant: string)
    requires forall k | 0 <= k < |entries| :: entries[k].merchant != merchant
    ensures Net(entries, merchant) == 0 && LastId(entries, merchant) == None
  {
    if entries != [] { NoEntriesNoNet(entries[..|entries| - 1], merchant); }
  }

  lemma AppendKeepsConsistent(s: State, e: Entry)
    requires Consistent(s) && e.id == s.nextId && Known(s, e.merchant)
    requires e.balanceAfter == BalanceOf(s, e.merchant) + Signed(e.kind, e.amount) >= 0
    ensures Consistent(Append(s, e))
  {
    var s' := Append(s, e);
    if e.merchant !in s.balances { NoEntriesNoNet(s.entries, e.merchant); }
    assert s'.entries[..|s.entries|] == s.entries && s'.entries[..|s'.entries|] == s'.entries;
    forall k | 0 <= k < |s'.entries| ensures RunningBalance(s'.entries, k) {
      if k < |s.entries| {
        assert s'.entries[..k + 1] == s.entries[..k + 1];
        assert RunningBalance(s.entries, k);
      } else if e.merchant in s.balances {
        assert CacheAgrees(s, e.merchant);
      }
    }
    forall m | m in s'.balances ensures CacheAgrees(s', m) {
      if m in s.balances { assert CacheAgrees(s, m); }
    }
  }

  lemma CreditKeepsConsistent(s: State, merchant: string, amount: int, source: Source, ref: Option<string>)
    requires Consistent(s)
    ensures Consistent(CreditSpec(s, merchant, amount, source, ref).0)
  {
    if amount > 0 && Known(s, merchant) {
      AppendKeepsConsistent(s, NewEntry(s, merchant, Credit, amount, source, ref));
    }
  }

  lemma DebitKeepsConsistent(s: State, merchant: string, amount: int, source: Source, ref: Option<string>)
    requires Consistent(s)
    ensures Consistent(DebitSpec(s, merchant, amount, source, ref).0)
    ensures DebitSpec(s, merchant, amount, source, ref).1.Ok? ==> merchant in s.balances
  {
    if 0 < amount <= BalanceOf(s, merchant) {
      AppendKeepsConsistent(s, NewEntry(s, merchant, Debit, amount, source, ref));
    }
  }

  // ---------- every run ----------

  datatype Op =
    | CreditOp(merchant: string, amount: int, source: Source, ref: Option<string>)
    | DebitOp(merchant: string, amount: int, source: Source, ref: Option<string>)
    | RegisterOp(merchant: string)   // a merchant is added outside the ledger
    | RolledBack                     // a transaction that took an id and then rolled back

  function Apply(s: State, op: Op): State {
    match op
    case CreditOp(m, a, src, ref) => CreditSpec(s, m, a, src, ref).0
    case DebitOp(m, a, src, ref) => DebitSpec(s, m, a, src, ref).0
    case RegisterOp(m) => s.(merchants := s.merchants + {m})
    case RolledBack => s.(nextId := s.nextId + 1)
  }

  function Run(s: State, ops: seq<Op>): State
    decreases |ops|
  {
    if ops == [] then s else Apply(Run(s, ops[..|ops| - 1]), ops[|ops| - 1])
  }

  ghost predicate AtMostOncePerRef(entries: seq<Entry>) {
    forall j, k | 0 <= j < k < |entries| && entries[j].kind.Credit? && entries[k].kind.Credit?
                  && entries[j].source == entries[k].source && entries[j].sourceRef.Some? ::
      entries[j].sourceRef != entries[k].sourceRef
  }

  lemma CreditKeepsRefs(s: State, merchant: string, amount: int, source: Source, ref: Option<string>)
    requires AtMostOncePerRef(s.entries)
    ensures AtMostOncePerRef(CreditSpec(s, merchant, amount, source, ref).0.entries)
  {
  }

  lemma ApplyExtends(s: State, op: Op)
    ensures s.entries <= Apply(s, op).entries
  {
  }

  lemma SameHistoryConsistent(s: State, s': State)
    requires Consistent(s) && s'.entries == s.entries && s'.balances == s.balances
    requires s'.nextId >= s.nextId && s.merchants <= s'.merchants
    ensures Consistent(s')
  {
    forall m | m in s'.balances ensures CacheAgrees(s', m) { assert CacheAgrees(s, m); }
  }

  lemma ApplyKeeps(s: State, op: Op)
    requires Consistent(s) && AtMostOncePerRef(s.entries)
    ensures Consistent(Apply(s, op)) && AtMostOncePerRef(Apply(s, op).entries)
  {
    match op
    case CreditOp(m, a, src, ref) =>
      CreditKeepsConsistent(s, m, a, src, ref);
      CreditKeepsRefs(s, m, a, src, ref);
    case DebitOp(m, a, src, ref) => DebitKeepsConsistent(s, m, a, src, ref);
    case RegisterOp(m) => SameHistoryConsistent(s, Apply(s, op));
    case RolledBack => SameHistoryConsistent(s, Apply(s, op));
  }

  lemma {:induction false} RunConsistent(s: State, ops: seq<Op>)
    requires Consistent(s) && AtMostOncePerRef(s.entries)
    ensures Consistent(Run(s, ops)) && AtMostOncePerRef(Run(s, ops).entries)
    ensures s.entries <= Run(s, ops).entries
    decreases |ops|
  {
    if ops != [] {
      var before := Run(s, ops[..|ops| - 1]);
      RunConsistent(s, ops[..|ops| - 1]);
      ApplyKeeps(before, ops[|ops| - 1]);
      ApplyExtends(before, ops[|ops| - 1]);
    }
  }

  /** A new ledger: every balance row belongs to a merchant and is empty. */
  predicate IsSeed(seeded: map<string, Balance>, merchants: set<string>) {
    seeded.Keys <= merchants && forall m | m in seeded :: seeded[m] == Balance(0, None)
  }

  lemma SeededConsistent(seeded: map<string, Balance>, merchants: set<string>)
    requires IsSeed(seeded, merchants)
    ensures Consistent(State([], seeded, 1, merchants))
  {
  }

  /** Over every sequence of credits, debits and rollbacks the history is append-only, every entry holds
      the running balance of its merchant and is never negative, the cache equals the history, and no
      (source, source_ref) is credited twice. */
  lemma HistoryRefinesCache(seeded: map<string, Balance>, merchants: set<string>, ops: seq<Op>, more: seq<Op>)
    requires IsSeed(seeded, merchants)
    ensures var s := Run(State([], seeded, 1, merchants), ops);
            && Consistent(s) && AtMostOncePerRef(s.entries)
            && s.entries <= Run(s, more).entries
            && forall m :: BalanceOf(s, m) == Net(s.entries, m) >= 0
  {
    SeededConsistent(seeded, merchants);
    RunConsistent(State([], seeded, 1, merchants), ops);
    var s := Run(State([], seeded, 1, merchants), ops);
    RunConsistent(s, more);
    forall m ensures BalanceOf(s, m) == Net(s.entries, m) >= 0 {
      CachedBalanceIsNet(s, m);
    }
  }

  lemma CachedBalanceIsNet(s: State, m: string)
    requires Consistent(s)
    ensures BalanceOf(s, m) == Net(s.entries, m) >= 0
  {
    if m in s.balances { assert CacheAgrees(s, m); } else { NoEntriesNoNet(s.entries, m); }
  }

  // ---------- references ----------

  /** Some entry, of either kind, holds the reference. */
  predicate Held(s: State, source: Source, ref: string) {
    exists k :: 0 <= k < |s.entries| && s.entries[k].source == source && s.entries[k].sourceRef == Some(ref)
  }

  /** What the lookup finds it keeps finding, as entries are only appended. */
  lemma {:induction false} FindRefInLonger(short: seq<Entry>, long: seq<Entry>, source: Source, ref: string)
    requires short <= long && FindRef(short, source, ref).Some?
    ensures FindRef(long, source, ref) == FindRef(short, source, ref)
  {
    assert long[0] == short[0];
    if !(short[0].source == source && short[0].sourceRef == Some(ref)) {
      FindRefInLonger(short[1..], long[1..], source, ref);
    }
  }

  lemma {:induction false} FindRefAppended(entries: seq<Entry>, e: Entry, source: Source, ref: string)
    requires FindRef(entries, source, ref).None? && e.source == source && e.sourceRef == Some(ref)
    ensures FindRef(entries + [e], source, ref) == Some(e)
  {
    if entries != [] {
      assert (entries + [e])[0] == entries[0];
      assert (entries + [e])[1..] == entries[1..] + [e];
      FindRefAppended(entries[1..], e, source, ref);
    }
  }

  /** After a credit that succeeded the lookup finds its answer. */
  lemma CreditIsFound(s: State, m: string, a: int, source: Source, ref: string)
    requires CreditSpec(s, m, a, source, Some(ref)).1.Ok?
    ensures var (s1, r) := CreditSpec(s, m, a, source, Some(ref)); FindRef(s1.entries, source, ref) == Some(r.value)
  {
    if FindRef(s.entries, source, ref).None? {
      FindRefAppended(s.entries, NewEntry(s, m, Credit, a, source, Some(ref)), source, ref);
    }
  }

  /** A credit that succeeded and is repeated with its (source, source_ref), after any further operations and even with
      another amount or merchant, changes nothing and has the same answer; one that failed had changed nothing. */
  lemma {:induction false} RepeatedCreditChangesNothing(s: State, m: string, a: int, source: Source, ref: string,
                                                        between: seq<Op>, m2: string, a2: int)
    requires a2 > 0
    ensures var (s1, first) := CreditSpec(s, m, a, source, Some(ref));
            var later := Run(s1, between);
            if first.Ok? then CreditSpec(later, m2, a2, source, Some(ref)) == (later, first) && first.value in later.entries
            else s1 == s
  {
    var (s1, first) := CreditSpec(s, m, a, source, Some(ref));
    if first.Ok? {
      CreditIsFound(s, m, a, source, ref);
      RunExtends(s1, between);
      FindRefInLonger(s1.entries, Run(s1, between).entries, source, ref);
    }
  }

  lemma {:induction false} RunExtends(s: State, ops: seq<Op>)
    ensures s.entries <= Run(s, ops).entries
    decreases |ops|
  {
    if ops != [] {
      RunExtends(s, ops[..|ops| - 1]);
      ApplyExtends(Run(s, ops[..|ops| - 1]), ops[|ops| - 1]);
    }
  }

  /** A credit with a reference is posted, one entry raising the merchant's balance by its amount, exactly when no entry
      of either kind holds the reference and the merchant is known; it is answered with the holding entry, and nothing is
      posted, exactly when there is one. */
  lemma CreditPostedIffUnheld(s: State, m: string, a: int, source: Source, ref: string)
    requires a > 0
    ensures var (s1, r) := CreditSpec(s, m, a, source, Some(ref));
            && (r.Ok? ==> r.value.source == source && r.value.sourceRef == Some(ref))
            && (r.Ok? && BalanceOf(s1, m) == BalanceOf(s, m) + a && |s1.entries| == |s.entries| + 1 && s1.entries[|s.entries|] == r.value
                <==> !Held(s, source, ref) && Known(s, m))
            && (s1 == s && r.Ok? && r.value in s.entries <==> Held(s, source, ref))
            && (s1 == s && r == Err(UnknownMerchant) <==> !Held(s, source, ref) && !Known(s, m))
  {
    var found := FindRef(s.entries, source, ref);
    if found.Some? {
      var k :| 0 <= k < |s.entries| && s.entries[k] == found.value;
      assert Held(s, source, ref);
    }
  }

  /** So a debit booked under a source and reference keeps every later credit of that reference from being posted, though
      the call succeeds and answers with the debit. */
  lemma {:induction false} DebitBlocksCredit(s: State, m: string, a: int, source: Source, ref: string, between: seq<Op>, m2: string, a2: int)
    requires 0 < a <= BalanceOf(s, m) && a2 > 0 && !Held(s, source, ref)
    ensures var (s1, debit) := DebitSpec(s, m, a, source, Some(ref));
            var later := Run(s1, between);
            debit.Ok? && debit.value.kind == Debit && CreditSpec(later, m2, a2, source, Some(ref)) == (later, debit)
  {
    var (s1, debit) := DebitSpec(s, m, a, source, Some(ref));
    FindRefAppended(s.entries, debit.value, source, ref);
    RunExtends(s1, between);
    FindRefInLonger(s1.entries, Run(s1, between).entries, source, ref);
  }

  /** Such a ledger is reached: an admin adjustment down and one back up under one reference. */
  lemma AdjustmentNotPosted()
    ensures var topUp := CreditOp("m", 40, X402Payment, Some("pmt"));
            var down, up := DebitOp("m", 10, AdminAdjust, Some("fix")), CreditOp("m", 10, AdminAdjust, Some("fix"));
            var start := State([], map[], 1, {"m"});
            && BalanceOf(Run(start, [topUp, down]), "m") == 30
            && Run(start, [topUp, down, up]) == Run(start, [topUp, down])
  {
    var topUp := CreditOp("m", 40, X402Payment, Some("pmt"));
    var down, up := DebitOp("m", 10, AdminAdjust, Some("fix")), CreditOp("m", 10, AdminAdjust, Some("fix"));
    var start := State([], map[], 1, {"m"});
    assert [topUp, down, up][..2] == [topUp, down] && [topUp, down][..1] == [topUp] && [topUp][..0] == [];
    assert Run(start, []) == start;
    assert Run(start, [topUp]) == Apply(start, topUp);
    assert Run(start, [topUp, down]) == Apply(Apply(start, topUp), down);
    DebitBlocksCredit(Apply(start, topUp), "m", 10, AdminAdjust, "fix", [], "m", 10);
    assert Run(Apply(Apply(start, topUp), down), []) == Apply(Apply(start, topUp), down);
  }
}
