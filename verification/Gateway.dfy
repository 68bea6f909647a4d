/** The gateway's database transactions that do more than one thing: both rows or neither. */
module Gateway {
  import opened Wrappers
  import opened Orders

  // A payment_proofs row; `hash` is the unique signed_tx_hash column, NULL on the legacy route, and
  // stands for the signed string itself.  `submitter` is the request that inserted the row.
  datatype ProofRow = ProofRow(orderId: string, tx: string, hash: Option<string>, verified: bool, submitter: nat)

  datatype Store = Store(orders: Table, proofs: seq<ProofRow>)

  datatype TxError = OrderFault(fault: OrderError) | DuplicateProof

  predicate HashSeen(proofs: seq<ProofRow>, tx: string) {
    exists k :: 0 <= k < |proofs| && proofs[k].hash == Some(tx)
  }

  function InsertProof(proofs: seq<ProofRow>, row: ProofRow): Result<seq<ProofRow>, TxError> {
    if row.hash.Some? && HashSeen(proofs, row.hash.value) then Err(DuplicateProof) else Ok(proofs + [row])
  }

  /** /proof, step 2: a passing proof row together with created -> pending. */
  function AcceptProof(s: Store, row: ProofRow): Result<Store, TxError> {
    match InsertProof(s.proofs, row)
    case Err(e) => Err(e)
    case Ok(proofs) =>
      match Transition(s.orders, row.orderId, Some(Created), Pending, NO_UPDATES)
      case Err(e) => Err(OrderFault(e))
      case Ok(orders) => Ok(Store(orders, proofs))
  }

  /** Protected route, step 1j: created -> pending -> broadcasting -> confirmed in one transaction. */
  function CommitCheckout(t: Table, id: string, txHash: string, now: int): Result<Table, OrderError> {
    match Transition(t, id, Some(Created), Pending, NO_UPDATES)
    case Err(e) => Err(e)
    case Ok(t1) =>
      match Transition(t1, id, Some(Pending), Broadcasting, NO_UPDATES.(txHash := Some(txHash)))
      case Err(e) => Err(e)
      case Ok(t2) => Transition(t2, id, Some(Broadcasting), Confirmed, NO_UPDATES.(confirmedAt := Some(now)))
  }

  /** The walk goes through exactly for an order still `created` and a hash that fits and no other order holds; its
      outcome is the one row, confirmed, with hash and time. */
  lemma CommitCheckoutOutcome(t: Table, id: string, txHash: string, now: int)
    ensures CommitCheckout(t, id, txHash, now).Ok? <==>
              && id in t && t[id].status == Created && |txHash| <= 96
              && forall o | o in t && o != id :: t[o].txHash != Some(txHash)
    ensures CommitCheckout(t, id, txHash, now).Ok? ==>
              CommitCheckout(t, id, txHash, now).value
              == t[id := t[id].(status := Confirmed, txHash := Some(txHash), confirmedAt := Some(now))]
  {
    if id in t && t[id].status == Created {
      var t1 := t[id := Write(t[id], Pending, NO_UPDATES)];
      assert HashTaken(t1, id, txHash) <==> HashTaken(t, id, txHash) by {
        if HashTaken(t, id, txHash) {
          var o :| o in t && o != id && t[o].txHash == Some(txHash);
          assert o in t1 && t1[o].txHash == Some(txHash);
        }
      }
    }
  }

  /** Which failure it is: no such order, an order that has moved on, or another order's hash. */
  lemma CommitCheckoutErrors(t: Table, id: string, txHash: string, now: int)
    ensures CommitCheckout(t, id, txHash, now) == Err(NotFound) <==> id !in t
    ensures CommitCheckout(t, id, txHash, now).Err? && CommitCheckout(t, id, txHash, now).error.Conflict? <==> id in t && t[id].status != Created
  {
  }

  lemma AcceptProofOutcome(s: Store, row: ProofRow)
    requires row.hash == None
    ensures AcceptProof(s, row).Ok? <==> row.orderId in s.orders && s.orders[row.orderId].status == Created
    ensures AcceptProof(s, row).Ok? ==>
              AcceptProof(s, row).value == Store(s.orders[row.orderId := s.orders[row.orderId].(status := Pending)], s.proofs + [row])
  {
  }

  /** The two tables, with explicit rollback. */
  class Database {
    const table: OrderTable
    var proofs: seq<ProofRow>

    function Contents(): Store
      reads this, table
    {
      Store(table.rows, proofs)
    }

    constructor ()
      ensures fresh(table) && Contents() == Store(map[], [])
    {
      table := new OrderTable();
      proofs := [];
    }

    method InsertProofRow(row: ProofRow) returns (e: Option<TxError>)
      modifies this
      ensures match InsertProof(old(proofs), row)
              case Ok(p) => e == None && proofs == p
              case Err(err) => e == Some(err) && proofs == old(proofs)
      ensures e == if row.hash.Some? && (exists k :: 0 <= k < |old(proofs)| && old(proofs)[k].hash == row.hash) then Some(DuplicateProof) else None
      ensures proofs == if e == None then old(proofs) + [row] else old(proofs)
    {
      if row.hash.Some? && HashSeen(proofs, row.hash.value) {
        return Some(DuplicateProof);
      }
      proofs := proofs + [row];
      e := None;
    }

    method AcceptProofTx(row: ProofRow) returns (r: Result<Order, TxError>)
      modifies this, table
      ensures match AcceptProof(old(Contents()), row)
              case Ok(s) => Contents() == s && r == Ok(s.orders[row.orderId])
              case Err(e) => Contents() == old(Contents()) && r == Err(e)
    {
      var savedProofs := proofs;
      var failed := InsertProofRow(row);
      if failed.Some? {
        return Err(failed.value);
      }
      var moved := table.TransitionRow(row.orderId, Some(Created), Pending, NO_UPDATES);
      if moved.Err? {
        proofs := savedProofs;
        return Err(OrderFault(moved.error));
      }
      r := Ok(moved.value);
    }

    method CommitCheckoutTx(id: string, txHash: string, now: int) returns (r: Result<Order, OrderError>)
      modifies table
      ensures proofs == old(proofs)
      ensures match CommitCheckout(old(table.rows), id, txHash, now)
              case Ok(t) => table.rows == t && r == Ok(t[id])
              case Err(e) => table.rows == old(table.rows) && r == Err(e)
    {
      var saved := table.rows;
      r := table.TransitionRow(id, Some(Created), Pending, NO_UPDATES);
      if r.Ok? {
        r := table.TransitionRow(id, Some(Pending), Broadcasting, NO_UPDATES.(txHash := Some(txHash)));
      }
      if r.Ok? {
        r := table.TransitionRow(id, Some(Broadcasting), Confirmed, NO_UPDATES.(confirmedAt := Some(now)));
      }
      if r.Err? {
        table.rows := saved;
      }
    }
  }
}
