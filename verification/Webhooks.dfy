/** The x402 webhook deliverer: a ticking task that POSTs due deliveries and retries them with
    exponential backoff and jitter.  Times are in seconds. */
module Webhooks {
  import opened Wrappers

  datatype Status = Pending | FailedRetrying | Delivered | FailedDeadLetter

  /** A webhook_deliveries row.  `posts` records the POSTs that ended in a response or an HTTPError, `lost`
      those that ended in any other exception, `scheduled` when each retry was written; the deliverer
      never reads them. */
  datatype Row = Row(status: Status, attempts: nat, nextRetryAt: real, lastCode: Option<int>,
                     posts: seq<real>, lost: seq<real>, scheduled: seq<real>)

  function Enqueued(now: real): Row {
    Row(Pending, 0, now, None, [], [], [])
  }

  const BACKOFF_SECS: seq<nat> := [60, 300, 900, 3600, 21600, 86400]
  const JITTER_FRAC := 0.2

  function BackoffBase(attempt: int): nat {
    var last := attempt - 1;
    BACKOFF_SECS[if last < 0 then 0 else if last > 5 then 5 else last]
  }

  /** base + uniform(-jitter, jitter), for a draw u in [-1, 1]. */
  function ComputeBackoff(attempt: int, u: real): (delay: real)
    requires -1.0 <= u <= 1.0
  {
    BackoffBase(attempt) as real + u * (BackoffBase(attempt) as real * JITTER_FRAC)
  }

  /** One minute, five, fifteen, an hour, six hours, and a day from the sixth attempt on, give or take a fifth. */
  lemma BackoffWithinJitter(attempt: int, u: real)
    requires -1.0 <= u <= 1.0
    ensures 0.8 * BackoffBase(attempt) as real <= ComputeBackoff(attempt, u) <= 1.2 * BackoffBase(attempt) as real
    ensures ComputeBackoff(attempt, -1.0) == 0.8 * BackoffBase(attempt) as real && ComputeBackoff(attempt, 1.0) == 1.2 * BackoffBase(attempt) as real
    ensures BackoffBase(attempt) == if attempt <= 1 then 60 else if attempt == 2 then 300 else if attempt == 3 then 900
                                    else if attempt == 4 then 3600 else if attempt == 5 then 21600 else 86400
  {
    var j := BackoffBase(attempt) as real * JITTER_FRAC;
    assert j >= 0.0;
    assert -1.0 * j <= u * j <= 1.0 * j;
  }

  // ---------- one delivery ----------

  // A response, an httpx.HTTPError, or an exception nobody catches before the gather.
  datatype Outcome = Response(code: int) | TransportError | OtherException

  function CodeOf(o: Outcome): Option<int> {
    match o case Response(code) => Some(code) case _ => None
  }

  predicate Accepted(o: Outcome) { o.Response? && 200 <= o.code < 300 }
  predicate Refused(o: Outcome) { o.Response? && 400 <= o.code < 500 && o.code != 429 }

  predicate Eligible(r: Row, now: real) {
    (r.status == Pending || r.status == FailedRetrying) && r.nextRetryAt <= now
  }

  // One due row in one tick: selected, POSTed, written back.
  datatype Delivery = Delivery(at: real, postedAt: real, writtenAt: real, outcome: Outcome, u: real)

  predicate WellTimed(d: Delivery) {
    d.at <= d.postedAt <= d.writtenAt && -1.0 <= d.u <= 1.0
  }

  /** What is written after the POST.  `seen` is the attempt count the tick's SELECT returned; the
      terminal updates add one to the stored count, the retry stores `seen + 1`. */
  function AfterPost(row: Row, maxAttempts: int, seen: nat, d: Delivery): Row
    requires WellTimed(d)
  {
    var r := row.(posts := row.posts + [d.postedAt], lastCode := CodeOf(d.outcome));
    if d.outcome == OtherException then row.(lost := row.lost + [d.postedAt])
    else if Accepted(d.outcome) then r.(status := Delivered, attempts := r.attempts + 1)
    else if Refused(d.outcome) || seen + 1 >= maxAttempts then r.(status := FailedDeadLetter, attempts := r.attempts + 1)
    else
      r.(status := FailedRetrying, attempts := seen + 1,
         nextRetryAt := d.writtenAt + ComputeBackoff(seen + 1, d.u), scheduled := r.scheduled + [d.writtenAt])
  }

  function Deliver(r: Row, maxAttempts: int, d: Delivery): Row
    requires WellTimed(d)
  {
    if Eligible(r, d.at) then AfterPost(r, maxAttempts, r.attempts, d) else r
  }

  class Deliverer {
    var rows: map<nat, Row>
    const maxAttempts: int
    const batchSize: nat

    constructor (rows: map<nat, Row>, maxAttempts: int, batchSize: nat)
      ensures this.rows == rows && this.maxAttempts == maxAttempts && this.batchSize == batchSize
    {
      this.rows, this.maxAttempts, this.batchSize := rows, maxAttempts, batchSize;
    }

    method Enqueue(id: nat, targetUrl: string, now: real) returns (made: Option<nat>)
      requires id !in rows
      modifies this
      ensures made == if targetUrl == "" then None else Some(id)
      ensures rows == if targetUrl == "" then old(rows) else old(rows)[id := Row(Pending, 0, now, None, [], [], [])]
    {
      if targetUrl == "" {
        return None;
      }
      rows := rows[id := Enqueued(now)];
      made := Some(id);
    }

    method DeliverOne(id: nat, seen: nat, d: Delivery)
      requires id in rows && WellTimed(d)
      modifies this
      ensures rows == old(rows)[id := AfterPost(old(rows)[id], maxAttempts, seen, d)]
      ensures d.outcome == OtherException ==> rows == old(rows)[id := old(rows)[id].(lost := old(rows)[id].lost + [d.postedAt])]
      ensures d.outcome != OtherException ==>
                var code := if d.outcome.Response? then Some(d.outcome.code) else None;
                var r := old(rows)[id].(posts := old(rows)[id].posts + [d.postedAt], lastCode := code);
                rows == old(rows)[id :=
                  if code.Some? && 200 <= code.value < 300 then r.(status := Delivered, attempts := r.attempts + 1)
                  else if (code.Some? && 400 <= code.value < 500 && code.value != 429) || seen + 1 >= maxAttempts then
                    r.(status := FailedDeadLetter, attempts := r.attempts + 1)
                  else
                    r.(status := FailedRetrying, attempts := seen + 1, scheduled := r.scheduled + [d.writtenAt],
                       nextRetryAt := d.writtenAt + ComputeBackoff(seen + 1, d.u))]
    {
      if d.outcome == OtherException {
        rows := rows[id := rows[id].(lost := rows[id].lost + [d.postedAt])];
        return;
      }
      var row := rows[id].(posts := rows[id].posts + [d.postedAt]);
      var status: Option<int> := None;
      match d.outcome {
        case Response(code) =>
          status := Some(code);
          if 200 <= code < 300 {
            rows := rows[id := row.(status := Delivered, attempts := row.attempts + 1, lastCode := status)];
            return;
          }
          if 400 <= code < 500 && code != 429 {
            rows := rows[id := row.(status := FailedDeadLetter, attempts := row.attempts + 1, lastCode := status)];
            return;
          }
        case _ =>
      }
      var nextAttempt := seen + 1;
      if nextAttempt >= maxAttempts {
        rows := rows[id := row.(status := FailedDeadLetter, attempts := row.attempts + 1, lastCode := status)];
        return;
      }
      var nextAt := d.writtenAt + ComputeBackoff(nextAttempt, d.u);
      rows := rows[id := row.(status := FailedRetrying, attempts := nextAttempt, lastCode := status,
                              nextRetryAt := nextAt, scheduled := row.scheduled + [d.writtenAt])];
    }

    /** One tick: select the due rows in order of next_retry_at, at most a batch, and deliver each with the
        attempt count read at selection.  The gathered deliveries touch different rows. */
    method Tick(now: real, answers: map<nat, Delivery>) returns (picked: seq<nat>)
      requires forall id | id in rows :: id in answers && WellTimed(answers[id]) && answers[id].at == now
      modifies this
      ensures |picked| <= batchSize && (forall j, k | 0 <= j < k < |picked| :: picked[j] != picked[k])
      ensures forall k | 0 <= k < |picked| :: picked[k] in old(rows) && var r := old(rows)[picked[k]];
                (r.status == Pending || r.status == FailedRetrying) && r.nextRetryAt <= now
      ensures forall id | id in old(rows) && id !in picked :: var r := old(rows)[id];
                (r.status == Pending || r.status == FailedRetrying) && r.nextRetryAt <= now ==>
                  |picked| == batchSize && forall k | 0 <= k < |picked| :: old(rows)[picked[k]].nextRetryAt <= r.nextRetryAt
      ensures rows.Keys == old(rows).Keys
      ensures forall id | id in rows ::
                rows[id] == if id in picked then Deliver(old(rows)[id], maxAttempts, answers[id]) else old(rows)[id]
    {
      hide AfterPost;
      var snapshot := rows;
      picked := SelectDue(now);
      var i := 0;
      while i < |picked|
        invariant 0 <= i <= |picked| && rows.Keys == snapshot.Keys
        invariant forall id | id in rows ::
                    rows[id] == if id in picked[..i] then Deliver(snapshot[id], maxAttempts, answers[id]) else snapshot[id]
      {
        var id := picked[i];
        assert id !in picked[..i];
        DeliverOne(id, snapshot[id].attempts, answers[id]);
        assert picked[..i + 1] == picked[..i] + [id];
        i := i + 1;
      }
      assert picked[..i] == picked;
    }

    method SelectDue(now: real) returns (picked: seq<nat>)
      ensures |picked| <= batchSize && (forall j, k | 0 <= j < k < |picked| :: picked[j] != picked[k])
      ensures forall k | 0 <= k < |picked| :: picked[k] in rows && var r := rows[picked[k]];
                (r.status == Pending || r.status == FailedRetrying) && r.nextRetryAt <= now
      ensures forall id | id in rows && id !in picked :: var r := rows[id];
                (r.status == Pending || r.status == FailedRetrying) && r.nextRetryAt <= now ==>
                  |picked| == batchSize && forall k | 0 <= k < |picked| :: rows[picked[k]].nextRetryAt <= r.nextRetryAt
    {
      picked := [];
      var rest := set id | id in rows && Eligible(rows[id], now);
      while rest != {} && |picked| < batchSize
        invariant |picked| <= batchSize
        invariant forall j, k | 0 <= j < k < |picked| :: picked[j] != picked[k]
        invariant forall k | 0 <= k < |picked| :: picked[k] in rows && Eligible(rows[picked[k]], now) && picked[k] !in rest
        invariant forall id | id in rows && Eligible(rows[id], now) :: id in picked || id in rest
        invariant forall id <- rest :: id in rows && Eligible(rows[id], now)
        invariant forall id, k | id in rest && 0 <= k < |picked| :: rows[picked[k]].nextRetryAt <= rows[id].nextRetryAt
        decreases |rest|
      {
        var least := Soonest(rest);
        picked := picked + [least];
        rest := rest - {least};
      }
    }

    method Soonest(ids: set<nat>) returns (least: nat)
      requires ids != {} && ids <= rows.Keys
      ensures least in ids && forall id <- ids :: rows[least].nextRetryAt <= rows[id].nextRetryAt
    {
      least :| least in ids;
      var rest := ids - {least};
      while rest != {}
        invariant rest <= ids && least in ids
        invariant forall id <- ids - rest :: rows[least].nextRetryAt <= rows[id].nextRetryAt
        decreases |rest|
      {
        var id :| id in rest;
        if rows[id].nextRetryAt < rows[least].nextRetryAt {
          least := id;
        }
        rest := rest - {id};
      }
    }
  }

  // ---------- runs of one row ----------

  ghost predicate AllWellTimed(ds: seq<Delivery>) {
    forall k | 0 <= k < |ds| :: WellTimed(ds[k])
  }

  function Run(r: Row, maxAttempts: int, ds: seq<Delivery>): Row
    requires forall k | 0 <= k < |ds| :: WellTimed(ds[k])
    decreases |ds|
  {
    if ds == [] then r else Deliver(Run(r, maxAttempts, ds[..|ds| - 1]), maxAttempts, ds[|ds| - 1])
  }

  predicate Terminal(r: Row) { r.status == Delivered || r.status == FailedDeadLetter }

  /** Retry k was written after POST k, and POST k + 1 keeps at least 0.8 of the k-th backoff. */
  predicate Spaced(r: Row, k: nat)
    requires 1 <= k <= |r.scheduled| && k <= |r.posts|
  {
    && r.posts[k - 1] <= r.scheduled[k - 1]
    && (k < |r.posts| ==> r.posts[k] - r.scheduled[k - 1] >= 0.8 * BackoffBase(k) as real)
  }

  function Bound(maxAttempts: int): nat {
    if maxAttempts < 1 then 1 else maxAttempts
  }

  ghost predicate RowOk(r: Row, maxAttempts: int) {
    && r.attempts == |r.posts| <= Bound(maxAttempts)
    && (r.status == Pending <==> |r.posts| == 0)
    && |r.scheduled| == (if Terminal(r) then |r.posts| - 1 else |r.posts|)
    && (!Terminal(r) ==> |r.posts| < Bound(maxAttempts))
    && (r.status == FailedRetrying ==> r.nextRetryAt >= r.scheduled[|r.posts| - 1] + 0.8 * BackoffBase(|r.posts|) as real)
    && (forall k | 1 <= k <= |r.scheduled| :: Spaced(r, k))
  }

  lemma DeliverOk(r: Row, maxAttempts: int, d: Delivery)
    requires RowOk(r, maxAttempts) && WellTimed(d)
    ensures RowOk(Deliver(r, maxAttempts, d), maxAttempts)
  {
    var r' := Deliver(r, maxAttempts, d);
    BackoffWithinJitter(r.attempts + 1, d.u);
    forall k | 1 <= k <= |r'.scheduled| ensures Spaced(r', k) {
      if k <= |r.scheduled| { assert Spaced(r, k); }
    }
  }

  /** attempt_count is the number of POSTs that ended in a response or an HTTPError, it never exceeds
      MAX_ATTEMPTS (or one, if that is smaller), and each retry waits at least 0.8 of its backoff. */
  lemma {:induction false} AttemptsCountPosts(now: real, maxAttempts: int, ds: seq<Delivery>)
    requires AllWellTimed(ds)
    ensures RowOk(Run(Enqueued(now), maxAttempts, ds), maxAttempts)
    decreases |ds|
  {
    if ds != [] {
      AttemptsCountPosts(now, maxAttempts, ds[..|ds| - 1]);
      DeliverOk(Run(Enqueued(now), maxAttempts, ds[..|ds| - 1]), maxAttempts, ds[|ds| - 1]);
    }
  }

  function CountLost(r: Row, maxAttempts: int, ds: seq<Delivery>): nat
    requires forall k | 0 <= k < |ds| :: WellTimed(ds[k])
    decreases |ds|
  {
    if ds == [] then 0
    else
      var d := ds[|ds| - 1];
      CountLost(r, maxAttempts, ds[..|ds| - 1])
      + if d.outcome == OtherException && Eligible(Run(r, maxAttempts, ds[..|ds| - 1]), d.at) then 1 else 0
  }

  /** It is the number of all POSTs made exactly when none of them ended in another exception. */
  lemma {:induction false} EveryPostCountedIffNoneLost(now: real, maxAttempts: int, ds: seq<Delivery>)
    requires AllWellTimed(ds)
    ensures var r := Run(Enqueued(now), maxAttempts, ds);
            && |r.lost| == CountLost(Enqueued(now), maxAttempts, ds)
            && (r.attempts == |r.posts| + |r.lost| <==> CountLost(Enqueued(now), maxAttempts, ds) == 0)
    decreases |ds|
  {
    AttemptsCountPosts(now, maxAttempts, ds);
    if ds != [] { EveryPostCountedIffNoneLost(now, maxAttempts, ds[..|ds| - 1]); }
  }

  /** A row whose status is pending or failed_retrying and whose time has come gets exactly one more POST, or one more that
      is lost; every other row is left alone. */
  lemma DueRowsGetOnePost(r: Row, maxAttempts: int, d: Delivery)
    requires WellTimed(d)
    ensures var r' := Deliver(r, maxAttempts, d);
            if (r.status == Pending || r.status == FailedRetrying) && r.nextRetryAt <= d.at then
              if d.outcome == OtherException then r' == r.(lost := r.lost + [d.postedAt])
              else r'.posts == r.posts + [d.postedAt] && r'.lost == r.lost && r'.attempts == r.attempts + 1
            else r' == r
  {
    BackoffWithinJitter(r.attempts + 1, d.u);
  }

  /** Answered with 429, with no HTTP status, or with one that is neither 2xx nor 4xx. */
  predicate Retryable(o: Outcome) {
    o == TransportError || (o.Response? && (o.code == 429 || o.code < 200 || 300 <= o.code < 400 || o.code >= 500))
  }

  /** Every delivery comes when the row is due and gets an answer that is tried again. */
  ghost predicate FailsOnTime(r: Row, maxAttempts: int, ds: seq<Delivery>) {
    && AllWellTimed(ds)
    && forall k | 0 <= k < |ds| :: Retryable(ds[k].outcome) && Run(r, maxAttempts, ds[..k]).nextRetryAt <= ds[k].at
  }

  /** Such a row is POSTed once by each delivery until MAX_ATTEMPTS POSTs (or one, if that is smaller) are made, waits
      failed_retrying in between, and is then dead-lettered. */
  lemma {:induction false} PostedUntilTheBound(now: real, maxAttempts: int, ds: seq<Delivery>)
    requires FailsOnTime(Enqueued(now), maxAttempts, ds)
    ensures var r := Run(Enqueued(now), maxAttempts, ds); var bound := if maxAttempts < 1 then 1 else maxAttempts;
            && |r.posts| == (if |ds| < bound then |ds| else bound) && r.lost == []
            && r.status == (if ds == [] then Pending else if |ds| < bound then FailedRetrying else FailedDeadLetter)
    decreases |ds|
  {
    AttemptsCountPosts(now, maxAttempts, ds);
    if ds != [] {
      var n := |ds| - 1;
      assert forall k | 0 <= k < n :: ds[..n][..k] == ds[..k];
      PostedUntilTheBound(now, maxAttempts, ds[..n]);
      AttemptsCountPosts(now, maxAttempts, ds[..n]);
      DueRowsGetOnePost(Run(Enqueued(now), maxAttempts, ds[..n]), maxAttempts, ds[n]);
    }
  }

  /** In every run each POST after the first waits at least 48 s, 4 min, 12 min, 48 min, 4.8 h or 19.2 h after the retry
      before it was written. */
  lemma RetriesSpaced(now: real, maxAttempts: int, ds: seq<Delivery>, k: nat)
    requires AllWellTimed(ds) && k + 1 < |Run(Enqueued(now), maxAttempts, ds).posts|
    ensures var r := Run(Enqueued(now), maxAttempts, ds);
            && k < |r.scheduled| && r.posts[k] <= r.scheduled[k]
            && r.posts[k + 1] - r.scheduled[k] >= [48.0, 240.0, 720.0, 2880.0, 17280.0, 69120.0][if k < 5 then k else 5]
  {
    AttemptsCountPosts(now, maxAttempts, ds);
    assert Spaced(Run(Enqueued(now), maxAttempts, ds), k + 1);
    BackoffWithinJitter(k + 1, 0.0);
  }

  /** Delivered and dead-lettered rows are never touched again. */
  lemma {:induction false} TerminalIsAbsorbing(r: Row, maxAttempts: int, ds: seq<Delivery>)
    requires Terminal(r) && AllWellTimed(ds)
    ensures Run(r, maxAttempts, ds) == r
    decreases |ds|
  {
    if ds != [] { TerminalIsAbsorbing(r, maxAttempts, ds[..|ds| - 1]); }
  }

  /** A row ends delivered exactly when its last POST was answered 2xx, and dead-lettered exactly when it
      was refused or was the last one allowed. */
  lemma LastPostDecides(now: real, maxAttempts: int, ds: seq<Delivery>, d: Delivery)
    requires AllWellTimed(ds) && WellTimed(d)
    ensures var r := Run(Enqueued(now), maxAttempts, ds); var r' := Deliver(r, maxAttempts, d);
            Eligible(r, d.at) && d.outcome != OtherException ==>
              && |r'.posts| == |r.posts| + 1
              && (r'.status == Delivered <==> d.outcome.Response? && 200 <= d.outcome.code < 300)
              && (r'.status == FailedDeadLetter <==>
                    || (d.outcome.Response? && 400 <= d.outcome.code < 500 && d.outcome.code != 429)
                    || (|r'.posts| >= maxAttempts && r'.status != Delivered))
  {
    AttemptsCountPosts(now, maxAttempts, ds);
  }

  /** With the default of six attempts the 86400-second backoff is never scheduled. */
  lemma LongestBackoffUnused(now: real, ds: seq<Delivery>, d: Delivery)
    requires AllWellTimed(ds) && WellTimed(d)
    ensures var r := Run(Enqueued(now), 6, ds); var r' := Deliver(r, 6, d);
            r'.scheduled != r.scheduled ==> r'.nextRetryAt <= d.writtenAt + 1.2 * 21600.0
  {
    AttemptsCountPosts(now, 6, ds);
    var r := Run(Enqueued(now), 6, ds);
    BackoffWithinJitter(r.attempts + 1, d.u);
  }
}
