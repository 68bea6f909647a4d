/** Payment orders: the status machine, the guarded transition and the idempotent create. */
module Orders {
  import opened Wrappers

  datatype Status =
    | Created | Pending | Broadcasting | Confirmed | TokenCredited | Refunded | Failed | Expired | Canceled

  /** The transition table; a status without a row has no successor. */
  function Successors(s: Status): set<Status> {
    match s
    case Created => {Pending, Expired, Canceled}
    case Pending => {Broadcasting, Failed, Expired}
    case Broadcasting => {Confirmed, Failed}
    case Confirmed => {TokenCredited}
    case TokenCredited => {Refunded}
    case _ => {}
  }

  // The columns written once, by the insert.  `kind` is metadata["settlement_kind"] when it is a string.
  datatype OrderInfo = OrderInfo(id: string, merchant: string, apiKey: string, idemKey: string, amount: nat,
                                 recipient: string, nonce: string, kind: Option<string>,
                                 webhookUrl: Option<string>, expiresAt: int)

  // A row: the written-once columns and those a transition updates.
  datatype Order = Order(info: OrderInfo, status: Status, txHash: Option<string>, confirmedAt: Option<int>,
                         ledgerEntryId: Option<nat>, reason: Option<string>)

  type Table = map<string, Order>

  function SettlementKind(info: OrderInfo): string {
    if info.kind.Some? && info.kind.value != "" then info.kind.value else "token_topup"
  }

  predicate IsTopup(info: OrderInfo) {
    SettlementKind(info) == "token_topup"
  }

  /** Tokens are for orders without a kind, with an empty one, and with the one that says so. */
  lemma TopupKinds(info: OrderInfo)
    ensures IsTopup(info) <==> info.kind == None || info.kind == Some("") || info.kind == Some("token_topup")
  {
    if IsTopup(info) && info.kind.Some? && info.kind.value != "" { assert info.kind == Some("token_topup"); }
  }

  // ---------- uniqueness the database enforces ----------

  predicate SameKey(a: OrderInfo, b: OrderInfo) {
    a.apiKey == b.apiKey && a.idemKey == b.idemKey
  }

  predicate Clash(a: Order, b: Order) {
    || SameKey(a.info, b.info)
    || (a.info.recipient == b.info.recipient && a.info.nonce == b.info.nonce)
    || (a.txHash.Some? && a.txHash == b.txHash)
  }

  /** Rows are stored under their id, amounts are positive, and the three UNIQUE keys hold. */
  ghost predicate TableOk(t: Table) {
    && (forall id | id in t :: t[id].info.id == id && t[id].info.amount > 0)
    && (forall a, b | a in t && b in t && a != b :: !Clash(t[a], t[b]))
  }

  // ---------- transition ----------

  // DuplicateTxHash is the IntegrityError of the unique tx_hash column, DataTooLong the DataError of a value its
  // column cannot hold.
  datatype OrderError = NotFound | Conflict(current: Status, attempted: Status) | DataTooLong | DuplicateTxHash

  const TX_HASH_WIDTH := 96
  const REASON_WIDTH := 255

  // The optional `updates`; None leaves a column alone.
  datatype Updates = Updates(txHash: Option<string>, confirmedAt: Option<int>, ledgerEntryId: Option<nat>, reason: Option<string>)

  const NO_UPDATES := Updates(None, None, None, None)

  predicate Fits(u: Updates) {
    && (u.txHash.Some? ==> |u.txHash.value| <= TX_HASH_WIDTH)
    && (u.reason.Some? ==> |u.reason.value| <= REASON_WIDTH)
  }

  function Write(o: Order, to: Status, u: Updates): Order {
    o.(status := to,
       txHash := if u.txHash.Some? then u.txHash else o.txHash,
       confirmedAt := if u.confirmedAt.Some? then u.confirmedAt else o.confirmedAt,
       ledgerEntryId := if u.ledgerEntryId.Some? then u.ledgerEntryId else o.ledgerEntryId,
       reason := if u.reason.Some? then u.reason else o.reason)
  }

  predicate HashTaken(t: Table, id: string, h: string) {
    exists o | o in t :: o != id && t[o].txHash == Some(h)
  }

  /** The table after a transition, or the error that leaves it alone. */
  function Transition(t: Table, id: string, from: Option<Status>, to: Status, u: Updates): Result<Table, OrderError> {
    if id !in t then Err(NotFound)
    else if from.Some? && t[id].status != from.value then Err(Conflict(t[id].status, to))
    else if to !in Successors(t[id].status) then Err(Conflict(t[id].status, to))
    else if !Fits(u) then Err(DataTooLong)
    else if u.txHash.Some? && HashTaken(t, id, u.txHash.value) then Err(DuplicateTxHash)
    else Ok(t[id := Write(t[id], to, u)])
  }

  // ---------- create ----------

  datatype CreateError = IntegrityViolation

  function FreshOrder(info: OrderInfo): Order {
    Order(info, Created, None, None, None, None)
  }

  /** What a create may answer: the row that holds the idempotency key, as some reader sees it, or,
      when there is none, a new row that breaks no unique key. */
  ghost predicate MayReturn(t: Table, asked: OrderInfo, answer: Order) {
    if exists id :: id in t && SameKey(t[id].info, asked)
    then answer.info.id in t && t[answer.info.id].info == answer.info && SameKey(answer.info, asked)
    else answer == FreshOrder(asked) && Insertable(t, asked)
  }

  predicate Insertable(t: Table, info: OrderInfo) {
    info.id !in t && forall id | id in t :: !Clash(t[id], FreshOrder(info))
  }

  function Insert(t: Table, answer: Order): Table {
    if answer.info.id in t then t else t[answer.info.id := answer]
  }

  /** A create answers with the row of its API key and idempotency key, as a reader sees it, or else with a new `created` row
      whose id is new and whose recipient and nonce no row has together; only the new row is stored. */
  lemma CreateExactly(t: Table, asked: OrderInfo, answer: Order)
    ensures MayReturn(t, asked, answer) <==>
      if exists id :: id in t && t[id].info.apiKey == asked.apiKey && t[id].info.idemKey == asked.idemKey then
        && answer.info.id in t && t[answer.info.id].info == answer.info
        && answer.info.apiKey == asked.apiKey && answer.info.idemKey == asked.idemKey
      else
        && answer == Order(asked, Created, None, None, None, None) && asked.id !in t
        && forall id | id in t :: t[id].info.recipient != asked.recipient || t[id].info.nonce != asked.nonce
    ensures Insert(t, answer) == if answer.info.id in t then t else t[answer.info.id := answer]
  {
    if exists id :: id in t && SameKey(t[id].info, asked) {
    } else {
      assert forall id | id in t :: !SameKey(t[id].info, asked);
      assert forall id | id in t :: Clash(t[id], FreshOrder(asked)) <==>
               t[id].info.recipient == asked.recipient && t[id].info.nonce == asked.nonce;
    }
  }

  lemma InsertKeepsTable(t: Table, asked: OrderInfo, answer: Order)
    requires TableOk(t) && asked.amount > 0 && MayReturn(t, asked, answer)
    ensures TableOk(Insert(t, answer)) && answer.info.id in Insert(t, answer) && Insert(t, answer)[answer.info.id].info == answer.info
    ensures forall id | id in t :: id in Insert(t, answer) && Insert(t, answer)[id] == t[id]
    ensures answer.info.id !in t ==> answer == FreshOrder(asked)
  {
    var t' := Insert(t, answer);
    forall a, b | a in t' && b in t' && a != b ensures !Clash(t'[a], t'[b]) {
      if a in t && b in t { assert !Clash(t[a], t[b]); }
    }
  }

  /** A reader's view: rows that exist, possibly with a stale status, possibly not all of them. */
  ghost predicate ViewOf(view: Table, t: Table) {
    forall id | id in view :: id in t && t[id].info == view[id].info
  }

  class OrderTable {
    var rows: Table

    constructor ()
      ensures rows == map[] && TableOk(rows)
    {
      rows := map[];
    }

    /** The row lock makes the body one atomic step on `rows`. */
    method TransitionRow(id: string, from: Option<Status>, to: Status, u: Updates) returns (r: Result<Order, OrderError>)
      modifies this
      ensures match Transition(old(rows), id, from, to, u)
              case Ok(t) => rows == t && r == Ok(t[id])
              case Err(e) => rows == old(rows) && r == Err(e)
    {
      if id !in rows {
        return Err(NotFound);
      }
      var row := rows[id];
      if from.Some? && row.status != from.value {
        return Err(Conflict(row.status, to));
      }
      if to !in Successors(row.status) {
        return Err(Conflict(row.status, to));
      }
      if !Fits(u) {
        return Err(DataTooLong);
      }
      if u.txHash.Some? && HashTaken(rows, id, u.txHash.value) {
        return Err(DuplicateTxHash);
      }
      rows := rows[id := Write(row, to, u)];
      r := Ok(rows[id]);
    }

    /** The fast-path SELECT reads `before`, the INSERT runs against `rows`, and after an integrity
        error the re-fetch reads `after`.  Both views may lag behind `rows`. */
    method CreatePayment(before: Table, after: Table, asked: OrderInfo) returns (r: Result<Order, CreateError>)
      requires TableOk(rows) && ViewOf(before, rows) && ViewOf(after, rows) && asked.amount > 0
      modifies this
      ensures TableOk(rows)
      ensures r.Ok? ==> MayReturn(old(rows), asked, r.value) && rows == Insert(old(rows), r.value)
      ensures r.Err? ==> rows == old(rows) && !Insertable(rows, asked)
                         && forall id | id in after :: !SameKey(after[id].info, asked)
    {
      if exists id :: id in before && SameKey(before[id].info, asked) {
        var id :| id in before && SameKey(before[id].info, asked);
        assert SameKey(rows[id].info, asked);
        return Ok(before[id]);
      }
      if Insertable(rows, asked) {
        assert forall id | id in rows :: !SameKey(rows[id].info, asked) by {
          assert forall id | id in rows :: !Clash(rows[id], FreshOrder(asked));
        }
        rows := rows[asked.id := FreshOrder(asked)];
        return Ok(rows[asked.id]);
      }
      if exists id :: id in after && SameKey(after[id].info, asked) {
        var id :| id in after && SameKey(after[id].info, asked);
        assert SameKey(rows[id].info, asked);
        return Ok(after[id]);
      }
      r := Err(IntegrityViolation);
    }
  }

  // ---------- properties of the status machine ----------

  /** Transitions left at most: 5 from created, 0 from a status nothing leaves. */
  function Remaining(s: Status): nat {
    match s
    case Created => 5
    case Pending => 4
    case Broadcasting => 3
    case Confirmed => 2
    case TokenCredited => 1
    case _ => 0
  }

  /** The moves there are, status by status. */
  predicate MayFollow(from: Status, to: Status) {
    || (from == Created && (to == Pending || to == Expired || to == Canceled))
    || (from == Pending && (to == Broadcasting || to == Failed || to == Expired))
    || (from == Broadcasting && (to == Confirmed || to == Failed))
    || (from == Confirmed && to == TokenCredited)
    || (from == TokenCredited && to == Refunded)
  }

  lemma SuccessorsFollow(from: Status, to: Status)
    ensures to in Successors(from) <==> MayFollow(from, to)
  {
  }

  /** A transition goes through exactly for a row in the status asked for, along a move there is, with values their columns
      hold and a hash that is no other row's, and writes the new status and the columns given; which failure it is otherwise. */
  lemma TransitionExactly(t: Table, id: string, from: Option<Status>, to: Status, u: Updates)
    ensures var r := Transition(t, id, from, to, u);
            && (r.Ok? <==>
                  && id in t && (from == None || from == Some(t[id].status)) && MayFollow(t[id].status, to)
                  && (u.txHash.Some? ==> |u.txHash.value| <= 96 && forall o | o in t && o != id :: t[o].txHash != u.txHash)
                  && (u.reason.Some? ==> |u.reason.value| <= 255))
            && (r == Err(NotFound) <==> id !in t)
            && (id in t ==> (r == Err(Conflict(t[id].status, to)) <==>
                               !MayFollow(t[id].status, to) || !(from == None || from == Some(t[id].status))))
            && (r.Ok? ==> r.value == t[id := Order(t[id].info, to,
                                                   if u.txHash == None then t[id].txHash else u.txHash,
                                                   if u.confirmedAt == None then t[id].confirmedAt else u.confirmedAt,
                                                   if u.ledgerEntryId == None then t[id].ledgerEntryId else u.ledgerEntryId,
                                                   if u.reason == None then t[id].reason else u.reason)])
  {
    if id in t {
      SuccessorsFollow(t[id].status, to);
      if u.txHash.Some? { assert HashTaken(t, id, u.txHash.value) <==> exists o :: o in t && o != id && t[o].txHash == u.txHash; }
    }
    hide Successors, MayFollow, HashTaken;
  }

  /** A transition moves one row along one edge of the table, keeps the written-once columns and every
      other row, and cannot break a unique key. */
  lemma TransitionMovesOneRow(t: Table, id: string, from: Option<Status>, to: Status, u: Updates)
    requires TableOk(t) && Transition(t, id, from, to, u).Ok?
    ensures var t' := Transition(t, id, from, to, u).value;
            && TableOk(t') && t'.Keys == t.Keys
            && (forall o | o in t && o != id :: t'[o] == t[o])
            && t'[id].info == t[id].info && t'[id].status == to && MayFollow(t[id].status, to)
            && Remaining(to) < Remaining(t[id].status)
  {
    var t' := Transition(t, id, from, to, u).value;
    SuccessorsFollow(t[id].status, to);
    forall a, b | a in t' && b in t' && a != b ensures !Clash(t'[a], t'[b]) {
      assert !Clash(t[a], t[b]) && !Clash(t[b], t[a]);
    }
  }

  // A call of `transition`.
  datatype Call = Call(id: string, from: Option<Status>, to: Status, updates: Updates)

  function Run(t: Table, calls: seq<Call>): Table
    decreases |calls|
  {
    if calls == [] then t
    else
      var last := calls[|calls| - 1];
      var before := Run(t, calls[..|calls| - 1]);
      match Transition(before, last.id, last.from, last.to, last.updates)
      case Ok(after) => after
      case Err(_) => before
  }

  /** Over any sequence of calls by any number of tasks: rows neither appear nor disappear, written-once
      columns stay, a row that moved can never be seen in its first status again, and rows whose status
      nothing leaves are frozen altogether. */
  lemma {:induction false} RunsNeverReturn(t: Table, calls: seq<Call>, id: string)
    requires TableOk(t) && id in t
    ensures var t' := Run(t, calls);
            && TableOk(t') && id in t' && t'[id].info == t[id].info
            && (t'[id] == t[id] || Remaining(t'[id].status) < Remaining(t[id].status))
            && (t[id].status == Refunded || t[id].status == Failed || t[id].status == Expired || t[id].status == Canceled ==> t'[id] == t[id])
    decreases |calls|
  {
    if calls != [] {
      var last, earlier := calls[|calls| - 1], calls[..|calls| - 1];
      RunsNeverReturn(t, earlier, id);
      var before := Run(t, earlier);
      if Transition(before, last.id, last.from, last.to, last.updates).Ok? {
        TransitionMovesOneRow(before, last.id, last.from, last.to, last.updates);
      }
    }
  }

  /** Two creates with one key answer with one order, whatever happened in between. */
  lemma CreateIsIdempotent(t: Table, asked: OrderInfo, first: Order, later: Table, again: OrderInfo, second: Order)
    requires TableOk(t) && MayReturn(t, asked, first)
    requires TableOk(later) && ViewOf(Insert(t, first), later)
    requires SameKey(asked, again) && MayReturn(later, again, second)
    ensures second.info == first.info && Insert(later, second) == later
  {
    var id := first.info.id;
    assert SameKey(first.info, asked);
    assert later[id].info == first.info;
    assert SameKey(later[id].info, again);
    assert second.info.id != id ==> !Clash(later[second.info.id], later[id]);
  }
}
