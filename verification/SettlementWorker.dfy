/** WEA's single settlement worker: three passes over the settlements table, with a callback that is
    retried on a schedule.  Times are in seconds on one clock. */
module SettlementWorker {
  import opened Wrappers

  datatype Status = Pending | Broadcasting | Confirmed | Done | Failed
  datatype CallbackStatus = NotDue | CbPending | InFlight | SentOk | DeadLetter

  const RETRY_INTERVALS_SECS: seq<nat> := [300, 900, 3600, 21600, 86400]

  /** A settlements row.  `posts` and `failures` record when the callback was POSTed and when a failed
      POST was written back; the worker never reads them. */
  datatype Row = Row(status: Status, txHash: Option<string>, broadcastAt: real, callback: CallbackStatus,
                     attempts: nat, nextRetry: Option<real>, createdAt: real, posts: seq<real>, failures: seq<real>)

  function NewRow(createdAt: real): Row {
    Row(Pending, None, 0.0, NotDue, 0, None, createdAt, [], [])
  }

  // ---------- one row through one pass ----------

  function Broadcast(r: Row, txHash: string, now: real): Row {
    r.(status := Broadcasting, txHash := Some(txHash), broadcastAt := now)
  }

  datatype ChainStatus = Unknown | Succeeded | Rejected

  function Confirm(r: Row, chain: ChainStatus, now: real): Row {
    match chain
    case Unknown => r
    case Succeeded => r.(status := Confirmed, callback := CbPending, nextRetry := Some(now))
    case Rejected => r.(status := Failed, callback := CbPending, nextRetry := Some(now))
  }

  predicate Due(r: Row, now: real) {
    && r.callback == CbPending && (r.status == Confirmed || r.status == Failed)
    && (r.nextRetry.None? || r.nextRetry.value <= now)
  }

  function Claim(r: Row): Row {
    r.(callback := InFlight)
  }

  function Post(r: Row, now: real): Row {
    r.(posts := r.posts + [now])
  }

  /** What is written back after the POST; `attempts` was read when the row was claimed. */
  function Settle(r: Row, attempts: nat, ok: bool, now: real): Row {
    if ok then r.(callback := SentOk, status := if r.status == Confirmed then Done else r.status)
    else if attempts + 1 >= |RETRY_INTERVALS_SECS| then
      r.(callback := DeadLetter, attempts := attempts + 1, failures := r.failures + [now])
    else
      r.(callback := CbPending, attempts := attempts + 1, failures := r.failures + [now],
         nextRetry := Some(now + RETRY_INTERVALS_SECS[attempts + 1] as real))
  }

  // ---------- what can happen to a row ----------

  /** One pass over one row.  `Died` is a callback pass that ends after its claim without writing back,
      having POSTed or not. */
  datatype Event =
    | BroadcastEv(txHash: string, at: real)
    | ConfirmEv(chain: ChainStatus, at: real)
    | CallbackEv(at: real, postedAt: real, writtenAt: real, ok: bool)
    | Died(at: real, posted: Option<real>)

  /** A pass only acts on rows its SELECT returns. */
  function Apply(r: Row, e: Event): Row {
    match e
    case BroadcastEv(h, at) => if r.status == Pending then Broadcast(r, h, at) else r
    case ConfirmEv(chain, at) => if r.status == Broadcasting && r.txHash.Some? then Confirm(r, chain, at) else r
    case CallbackEv(at, postedAt, writtenAt, ok) =>
      if Due(r, at) then Settle(Post(Claim(r), postedAt), r.attempts, ok, writtenAt) else r
    case Died(at, posted) =>
      if !Due(r, at) then r else if posted.Some? then Post(Claim(r), posted.value) else Claim(r)
  }

  // ---------- the worker ----------

  type Table = map<string, Row>

  // What the outside answers a callback pass.
  datatype CallbackAnswer = DecryptFailed | Crashed(posted: Option<real>) | Answered(ok: bool, postedAt: real, writtenAt: real)

  function EventOf(answer: CallbackAnswer, now: real): Event
    requires !answer.DecryptFailed?
  {
    match answer
    case Answered(ok, postedAt, writtenAt) => CallbackEv(now, postedAt, writtenAt, ok)
    case Crashed(posted) => Died(now, posted)
  }

  class Worker {
    var rows: Table

    constructor (rows: Table)
      ensures this.rows == rows
    {
      this.rows := rows;
    }

    /** ORDER BY key LIMIT 1. */
    method FirstBy(ids: set<string>, key: string -> real) returns (first: Option<string>)
      ensures first.None? <==> ids == {}
      ensures first.Some? ==> first.value in ids && forall id <- ids :: key(first.value) <= key(id)
    {
      first := None;
      var rest := ids;
      while rest != {}
        invariant rest <= ids
        invariant first.None? <==> rest == ids
        invariant first.Some? ==> first.value in ids && forall id <- ids - rest :: key(first.value) <= key(id)
        decreases |rest|
      {
        var id :| id in rest;
        if first.None? || key(id) < key(first.value) {
          first := Some(id);
        }
        rest := rest - {id};
      }
    }

    /** `sent` is the RPC's hash, or None when it fails and the transaction rolls back. */
    method BroadcastPass(sent: Option<string>, now: real) returns (moved: Option<string>)
      modifies this
      ensures moved.None? ==> rows == old(rows)
      ensures moved.Some? <==> sent.Some? && exists o :: o in old(rows) && old(rows)[o].status == Pending
      ensures moved.Some? ==> moved.value in old(rows) && var id := moved.value;
                && old(rows)[id].status == Pending
                && (forall o | o in old(rows) && old(rows)[o].status == Pending :: old(rows)[id].createdAt <= old(rows)[o].createdAt)
                && rows == old(rows)[id := Apply(old(rows)[id], BroadcastEv(sent.value, now))]
                && rows == old(rows)[id := old(rows)[id].(status := Broadcasting, txHash := sent, broadcastAt := now)]
    {
      var snapshot := rows;
      var pending := set id | id in rows && rows[id].status == Pending;
      var first := FirstBy(pending, id => if id in snapshot then snapshot[id].createdAt else 0.0);
      assert forall o | o in rows && rows[o].status == Pending :: o in pending;
      if first.None? || sent.None? {
        return None;
      }
      rows := rows[first.value := Broadcast(rows[first.value], sent.value, now)];
      moved := first;
    }

    method ConfirmPass(chain: Option<ChainStatus>, now: real) returns (seen: Option<string>)
      modifies this
      ensures seen.None? ==> rows == old(rows)
      ensures seen.Some? <==> chain.Some? && exists o :: o in old(rows) && old(rows)[o].status == Broadcasting && old(rows)[o].txHash.Some?
      ensures seen.Some? ==> seen.value in old(rows) && var id := seen.value;
                && old(rows)[id].status == Broadcasting && old(rows)[id].txHash.Some?
                && (forall o | o in old(rows) && old(rows)[o].status == Broadcasting && old(rows)[o].txHash.Some? ::
                      old(rows)[id].broadcastAt <= old(rows)[o].broadcastAt)
                && rows == old(rows)[id := Apply(old(rows)[id], ConfirmEv(chain.value, now))]
      ensures seen.Some? && chain == Some(Unknown) ==> rows == old(rows)
      ensures seen.Some? && chain == Some(Succeeded) ==>
                rows == old(rows)[seen.value := old(rows)[seen.value].(status := Confirmed, callback := CbPending, nextRetry := Some(now))]
      ensures seen.Some? && chain == Some(Rejected) ==>
                rows == old(rows)[seen.value := old(rows)[seen.value].(status := Failed, callback := CbPending, nextRetry := Some(now))]
    {
      var snapshot := rows;
      var broadcasting := set id | id in rows && rows[id].status == Broadcasting && rows[id].txHash.Some?;
      var first := FirstBy(broadcasting, id => if id in snapshot then snapshot[id].broadcastAt else 0.0);
      assert forall o | o in rows && rows[o].status == Broadcasting && rows[o].txHash.Some? :: o in broadcasting;
      if first.None? || chain.None? {
        return None;
      }
      var id := first.value;
      match chain.value {
        case Succeeded => rows := rows[id := rows[id].(status := Confirmed, callback := CbPending, nextRetry := Some(now))];
        case Rejected => rows := rows[id := rows[id].(status := Failed, callback := CbPending, nextRetry := Some(now))];
        case Unknown =>
      }
      assert rows == old(rows)[id := Confirm(old(rows)[id], chain.value, now)];
      seen := first;
    }

    /** The SELECT of the callback pass: NULLs sort first. */
    method NextDue(now: real) returns (first: Option<string>)
      ensures first.None? <==> forall o | o in rows :: !Due(rows[o], now)
      ensures first.Some? ==>
                && first.value in rows && Due(rows[first.value], now)
                && forall o | o in rows && Due(rows[o], now) && rows[first.value].nextRetry.Some? ::
                     rows[o].nextRetry.Some? && rows[first.value].nextRetry.value <= rows[o].nextRetry.value
    {
      var snapshot := rows;
      var due := set id | id in rows && Due(rows[id], now);
      var unset := set id | id in due && rows[id].nextRetry.None?;
      first := FirstBy(if unset != {} then unset else due,
                       id => if id in snapshot && snapshot[id].nextRetry.Some? then snapshot[id].nextRetry.value else 0.0);
      assert forall o | o in rows && Due(rows[o], now) :: o in due;
      if first.Some? {
        forall o | o in rows && Due(rows[o], now) && rows[first.value].nextRetry.Some?
          ensures rows[o].nextRetry.Some? && rows[first.value].nextRetry.value <= rows[o].nextRetry.value
        {
          if unset == {} { assert o !in unset; }
        }
      }
    }

    method CallbackPass(answer: CallbackAnswer, now: real) returns (claimed: Option<string>)
      modifies this
      ensures claimed.None? ==> rows == old(rows)
      ensures claimed.Some? <==> !answer.DecryptFailed? && exists o :: o in old(rows) && Due(old(rows)[o], now)
      ensures claimed.Some? ==> claimed.value in old(rows) && var id := claimed.value;
                && Due(old(rows)[id], now)
                && (forall o | o in old(rows) && Due(old(rows)[o], now) && old(rows)[id].nextRetry.Some? ::
                      old(rows)[o].nextRetry.Some? && old(rows)[id].nextRetry.value <= old(rows)[o].nextRetry.value)
                && rows == old(rows)[id := Apply(old(rows)[id], EventOf(answer, now))]
      ensures claimed.Some? && answer.Answered? ==>
                var r := old(rows)[claimed.value].(posts := old(rows)[claimed.value].posts + [answer.postedAt]);
                var failed := r.(attempts := r.attempts + 1, failures := r.failures + [answer.writtenAt]);
                rows == old(rows)[claimed.value :=
                  if answer.ok then r.(callback := SentOk, status := if r.status == Confirmed then Done else Failed)
                  else if r.attempts >= 4 then failed.(callback := DeadLetter)
                  else failed.(nextRetry := Some(answer.writtenAt + [900.0, 3600.0, 21600.0, 86400.0][r.attempts]))]
      ensures claimed.Some? && answer.Crashed? ==>
                var r := old(rows)[claimed.value].(callback := InFlight);
                rows == old(rows)[claimed.value := if answer.posted == None then r else r.(posts := r.posts + [answer.posted.value])]
    {
      var first := NextDue(now);
      if first.None? || answer.DecryptFailed? {
        return None;
      }
      var id := first.value;
      var attempts := rows[id].attempts;
      rows := rows[id := Claim(rows[id])];
      claimed := first;
      match answer {
        case Crashed(posted) =>
          if posted.Some? {
            rows := rows[id := Post(rows[id], posted.value)];
          }
        case Answered(ok, postedAt, writtenAt) =>
          rows := rows[id := Post(rows[id], postedAt)];
          if ok {
            rows := rows[id := rows[id].(callback := SentOk, status := if rows[id].status == Confirmed then Done else rows[id].status)];
          } else {
            var newAttempt := attempts + 1;
            rows := rows[id := rows[id].(attempts := newAttempt, failures := rows[id].failures + [writtenAt])];
            if newAttempt >= |RETRY_INTERVALS_SECS| {
              rows := rows[id := rows[id].(callback := DeadLetter)];
            } else {
              var next := writtenAt + RETRY_INTERVALS_SECS[newAttempt] as real;
              rows := rows[id := rows[id].(callback := CbPending, nextRetry := Some(next))];
            }
          }
      }
      assert rows[id] == Apply(old(rows)[id], EventOf(answer, now));
      assert rows == old(rows)[id := rows[id]];
    }
  }

  // ---------- runs of one row ----------

  function Run(r: Row, events: seq<Event>): Row
    decreases |events|
  {
    if events == [] then r else Apply(Run(r, events[..|events| - 1]), events[|events| - 1])
  }

  predicate InOrder(e: Event) {
    match e
    case CallbackEv(at, postedAt, writtenAt, _) => at <= postedAt <= writtenAt
    case Died(at, posted) => posted.Some? ==> at <= posted.value
    case _ => true
  }

  /** One clock: the steps of each pass happen in order. */
  ghost predicate Sequential(events: seq<Event>) {
    forall k | 0 <= k < |events| :: InOrder(events[k])
  }

  /** The k-th recorded failure follows the k-th POST, and the next POST waits at least
      RETRY_INTERVALS_SECS[k] after it. */
  predicate Spaced(r: Row, k: nat)
    requires 1 <= k <= |r.posts| && k <= |r.failures| && |r.posts| <= |RETRY_INTERVALS_SECS|
  {
    && r.posts[k - 1] <= r.failures[k - 1]
    && (k < |r.posts| ==> r.posts[k] - r.failures[k - 1] >= RETRY_INTERVALS_SECS[k] as real)
  }

  ghost predicate RowOk(r: Row) {
    && (r.status == Pending || r.status == Broadcasting <==> r.callback == NotDue)
    && (r.callback == NotDue ==> r.attempts == 0)
    && (r.status == Done ==> r.callback == SentOk)
    && (r.callback == SentOk ==> r.status == Done || r.status == Failed)
    && |r.failures| == r.attempts <= 5 && (r.callback == DeadLetter <==> r.attempts == 5)
    && r.attempts <= |r.posts| <= 5 && |r.posts| <= r.attempts + 1
    && (r.callback == NotDue || r.callback == CbPending || r.callback == DeadLetter ==> |r.posts| == r.attempts)
    && (r.callback == CbPending && r.attempts > 0 ==>
          r.nextRetry == Some(r.failures[r.attempts - 1] + RETRY_INTERVALS_SECS[r.attempts] as real))
    && (forall k | 1 <= k <= |r.failures| :: Spaced(r, k))
  }

  lemma {:induction false} RunOk(createdAt: real, events: seq<Event>)
    requires Sequential(events)
    ensures RowOk(Run(NewRow(createdAt), events))
    decreases |events|
  {
    if events != [] {
      var earlier, e := events[..|events| - 1], events[|events| - 1];
      RunOk(createdAt, earlier);
      ApplyOk(Run(NewRow(createdAt), earlier), e);
    }
  }

  lemma ApplyOk(r: Row, e: Event)
    requires RowOk(r) && InOrder(e)
    ensures RowOk(Apply(r, e))
  {
    SpacedStays(r, e);
    hide Spaced;
  }

  lemma SpacedStays(r: Row, e: Event)
    requires RowOk(r) && InOrder(e)
    ensures var r' := Apply(r, e); r'.attempts <= |r'.posts| <= 5 && |r'.failures| == r'.attempts
    ensures forall k | 1 <= k <= |Apply(r, e).failures| :: Spaced(Apply(r, e), k)
  {
    var r' := Apply(r, e);
    forall k | 1 <= k <= |r'.failures| ensures Spaced(r', k) {
      if k <= |r.failures| { assert Spaced(r, k); }
    }
  }

  predicate Edge(from: Status, to: Status) {
    || (from == Pending && to == Broadcasting)
    || (from == Broadcasting && (to == Confirmed || to == Failed))
    || (from == Confirmed && to == Done)
  }

  /** Row-changing steps a row can still take. */
  function Measure(r: Row): nat {
    if r.status == Pending then 7
    else if r.status == Broadcasting then 6
    else if r.callback == CbPending && r.attempts <= 5 then 5 - r.attempts
    else 0
  }

  /** Of every step on a reachable row: statuses follow the edges, a POST is made only while confirmed or
      failed with the callback pending, sent_ok and dead-letter rows are frozen, and a step that changes
      the row decreases the measure. */
  lemma EveryStep(createdAt: real, events: seq<Event>, e: Event)
    requires Sequential(events)
    ensures var r := Run(NewRow(createdAt), events); var r' := Apply(r, e);
            && (r'.status == r.status || Edge(r.status, r'.status))
            && (r'.posts != r.posts ==> r.callback == CbPending && (r.status == Confirmed || r.status == Failed)
                                        && |r'.posts| == |r.posts| + 1)
            && (r.callback == SentOk || r.callback == DeadLetter || r.callback == InFlight ==> r' == r)
            && (r' != r ==> Measure(r') < Measure(r))
  {
    RunOk(createdAt, events);
  }

  /** At most five POSTs per row, and the one after the k-th failure waits 15 minutes, an hour, six hours or a day for it;
      the schedule's first five minutes are never waited for. */
  lemma FivePostsSpaced(createdAt: real, events: seq<Event>)
    requires Sequential(events)
    ensures var r := Run(NewRow(createdAt), events);
            && |r.failures| <= |r.posts| <= 5 && |r.posts| <= |r.failures| + 1
            && (forall k | 0 <= k < |r.failures| :: r.posts[k] <= r.failures[k])
            && forall k | 0 <= k < |r.posts| - 1 :: r.posts[k + 1] - r.failures[k] >= [900.0, 3600.0, 21600.0, 86400.0][k]
  {
    RunOk(createdAt, events);
    var r := Run(NewRow(createdAt), events);
    forall k | 0 <= k < |r.failures|
      ensures r.posts[k] <= r.failures[k]
      ensures k < |r.posts| - 1 ==> r.posts[k + 1] - r.failures[k] >= [900.0, 3600.0, 21600.0, 86400.0][k]
    {
      assert Spaced(r, k + 1);
    }
    hide Spaced;
  }

  /** How many events of a run change the row. */
  function Changes(r: Row, events: seq<Event>): nat
    decreases |events|
  {
    if events == [] then 0
    else
      var before := Run(r, events[..|events| - 1]);
      Changes(r, events[..|events| - 1]) + if Apply(before, events[|events| - 1]) == before then 0 else 1
  }

  /** However long the worker runs, a row is changed at most seven times. */
  lemma {:induction false} RowsComeToRest(createdAt: real, events: seq<Event>)
    requires Sequential(events)
    ensures Changes(NewRow(createdAt), events) + Measure(Run(NewRow(createdAt), events)) <= 7
    decreases |events|
  {
    if events != [] {
      RowsComeToRest(createdAt, events[..|events| - 1]);
      EveryStep(createdAt, events[..|events| - 1], events[|events| - 1]);
    }
  }

  // ---------- what the chain and the merchant answered ----------

  /** Event k is this answer of the chain, to a row that was broadcasting its hash. */
  ghost predicate ChainSaid(createdAt: real, events: seq<Event>, k: nat, chain: ChainStatus)
    requires k < |events|
  {
    var before := Run(NewRow(createdAt), events[..k]);
    before.status == Broadcasting && before.txHash.Some? && events[k].ConfirmEv? && events[k].chain == chain
  }

  /** Event k POSTed a callback that was due, and the answer was a success. */
  ghost predicate Acknowledged(createdAt: real, events: seq<Event>, k: nat)
    requires k < |events|
  {
    var before := Run(NewRow(createdAt), events[..k]);
    && events[k].CallbackEv? && events[k].ok
    && before.callback == CbPending && (before.status == Confirmed || before.status == Failed)
    && (before.nextRetry == None || before.nextRetry.value <= events[k].at)
  }

  ghost predicate EverAnswered(createdAt: real, events: seq<Event>, chain: ChainStatus) {
    exists k: nat :: k < |events| && ChainSaid(createdAt, events, k, chain)
  }

  ghost predicate EverAcknowledged(createdAt: real, events: seq<Event>) {
    exists k: nat :: k < |events| && Acknowledged(createdAt, events, k)
  }

  /** Only the last event can add to what a run has been answered. */
  lemma AnswersSoFar(createdAt: real, events: seq<Event>, chain: ChainStatus)
    requires events != []
    ensures var n := |events| - 1;
            && (EverAnswered(createdAt, events, chain) <==>
                  EverAnswered(createdAt, events[..n], chain) || ChainSaid(createdAt, events, n, chain))
            && (EverAcknowledged(createdAt, events) <==>
                  EverAcknowledged(createdAt, events[..n]) || Acknowledged(createdAt, events, n))
  {
    var n := |events| - 1;
    var earlier := events[..n];
    assert forall k: nat | k < n :: earlier[..k] == events[..k] && earlier[k] == events[k];
    assert forall k: nat | k < n :: ChainSaid(createdAt, earlier, k, chain) <==> ChainSaid(createdAt, events, k, chain);
    assert forall k: nat | k < n :: Acknowledged(createdAt, earlier, k) <==> Acknowledged(createdAt, events, k);
  }

  /** A row is confirmed or done exactly when the chain once said its transaction succeeded, failed exactly when the chain
      said it was rejected, and its callback is sent exactly when a POST of it was acknowledged; done is the two together. */
  lemma {:induction false} AnswersDecideTheRow(createdAt: real, events: seq<Event>)
    requires Sequential(events)
    ensures var r := Run(NewRow(createdAt), events);
            && (r.status == Confirmed || r.status == Done <==> EverAnswered(createdAt, events, Succeeded))
            && (r.status == Failed <==> EverAnswered(createdAt, events, Rejected))
            && (r.callback == SentOk <==> EverAcknowledged(createdAt, events))
            && (r.status == Done <==> EverAnswered(createdAt, events, Succeeded) && EverAcknowledged(createdAt, events))
    decreases |events|
  {
    if events != [] {
      var earlier := events[..|events| - 1];
      AnswersDecideTheRow(createdAt, earlier);
      RunOk(createdAt, earlier);
      AnswersSoFar(createdAt, events, Succeeded);
      AnswersSoFar(createdAt, events, Rejected);
      hide EverAnswered, EverAcknowledged;
    }
  }

  lemma OnlyBroadcastsSetTheHash(r: Row, e: Event)
    requires r.status == Pending <==> r.txHash == None
    ensures var r' := Apply(r, e);
            && (r'.status == Pending <==> r.status == Pending && !e.BroadcastEv?)
            && r'.txHash == (if r.status == Pending && e.BroadcastEv? then Some(e.txHash) else r.txHash)
  {
  }

  /** A row waits to be broadcast exactly until its first broadcast, whose hash it keeps for good. */
  lemma {:induction false} FirstBroadcastHash(createdAt: real, events: seq<Event>)
    ensures var r := Run(NewRow(createdAt), events);
            && (r.status == Pending <==> forall k | 0 <= k < |events| :: !events[k].BroadcastEv?)
            && (r.status == Pending <==> r.txHash == None)
            && forall k | 0 <= k < |events| && events[k].BroadcastEv? && (forall j | 0 <= j < k :: !events[j].BroadcastEv?) ::
                 r.txHash == Some(events[k].txHash)
    decreases |events|
  {
    if events != [] {
      var earlier, e := events[..|events| - 1], events[|events| - 1];
      FirstBroadcastHash(createdAt, earlier);
      OnlyBroadcastsSetTheHash(Run(NewRow(createdAt), earlier), e);
      assert earlier + [e] == events;
      OneMoreEvent(NewRow(createdAt), earlier, e);
      hide Apply, Run, NewRow;
      forall k | 0 <= k < |events| && events[k].BroadcastEv? && (forall j | 0 <= j < k :: !events[j].BroadcastEv?)
        ensures Run(NewRow(createdAt), events).txHash == Some(events[k].txHash)
      {
        if k < |earlier| { assert earlier[k] == events[k]; }
        assert forall j | 0 <= j < |earlier| :: earlier[j] == events[j];
      }
    }
  }

  /** Every event is a callback pass that comes when the next retry is due and finds the merchant failing. */
  ghost predicate FailsOnTime(r: Row, events: seq<Event>) {
    forall k | 0 <= k < |events| ::
      && events[k].CallbackEv? && !events[k].ok
      && (var next := Run(r, events[..k]).nextRetry; next.None? || next.value <= events[k].at)
  }

  lemma OneMoreFailure(r: Row, e: Event)
    requires RowOk(r) && (r.callback == CbPending || r.callback == DeadLetter)
    requires e.CallbackEv? && !e.ok && (r.nextRetry.None? || r.nextRetry.value <= e.at)
    ensures var r' := Apply(r, e);
            && |r'.posts| == (if |r.posts| < 5 then |r.posts| + 1 else 5)
            && r'.callback == (if |r.posts| < 4 then CbPending else DeadLetter)
            && |r'.failures| == |r'.posts| && r'.status == r.status
  {
    hide Spaced;
  }

  lemma FailsOnTimeSoFar(r: Row, events: seq<Event>)
    requires FailsOnTime(r, events) && Sequential(events) && events != []
    ensures var n := |events| - 1;
            && FailsOnTime(r, events[..n]) && Sequential(events[..n])
            && InOrder(events[n]) && events[n].CallbackEv? && !events[n].ok
            && (var next := Run(r, events[..n]).nextRetry; next.None? || next.value <= events[n].at)
  {
    hide Run, InOrder;
    assert forall k | 0 <= k < |events| - 1 :: events[..|events| - 1][..k] == events[..k];
  }

  lemma {:induction false} FailuresFrom(r: Row, events: seq<Event>)
    requires RowOk(r) && r.callback == CbPending && FailsOnTime(r, events) && Sequential(events)
    ensures var r' := Run(r, events);
            && RowOk(r') && r'.status == r.status && |r'.failures| == |r'.posts|
            && |r'.posts| == (if |r.posts| + |events| <= 5 then |r.posts| + |events| else 5)
            && r'.callback == (if |r.posts| + |events| < 5 then CbPending else DeadLetter)
    decreases |events|
  {
    if events != [] {
      FailsOnTimeSoFar(r, events);
      FailuresFrom(r, events[..|events| - 1]);
      hide FailsOnTime, Sequential, Apply;
      ApplyOk(Run(r, events[..|events| - 1]), events[|events| - 1]);
      OneMoreFailure(Run(r, events[..|events| - 1]), events[|events| - 1]);
      hide Spaced;
    }
  }

  /** A merchant who never acknowledges is POSTed until five POSTs are made, and then the callback is a dead letter. */
  lemma {:induction false} FiveFailuresDeadLetter(createdAt: real, earlier: seq<Event>, events: seq<Event>)
    requires Sequential(earlier) && Run(NewRow(createdAt), earlier).callback == CbPending
    requires Sequential(events) && FailsOnTime(Run(NewRow(createdAt), earlier), events)
    ensures var r := Run(NewRow(createdAt), earlier); var r' := Run(r, events);
            && |r'.posts| == (if |r.posts| + |events| <= 5 then |r.posts| + |events| else 5)
            && r'.callback == (if |r.posts| + |events| < 5 then CbPending else DeadLetter)
            && |r'.failures| == |r'.posts| && r'.status == r.status
  {
    RunOk(createdAt, earlier);
    hide RowOk, Run, Sequential, FailsOnTime;
    FailuresFrom(Run(NewRow(createdAt), earlier), events);
  }

  // ---------- runs of the whole table ----------

  /** One entry of the worker's log: a settlement arrives, or a pass acts on the row it selected. */
  datatype Entry = Arrives(id: string, createdAt: real) | Passes(id: string, event: Event)

  /** Each pass changes at most the row it selected, by that row's event. */
  function ApplyTo(t: Table, e: Entry): Table {
    match e
    case Arrives(id, createdAt) => if id in t then t else t[id := NewRow(createdAt)]
    case Passes(id, event) => if id in t then t[id := Apply(t[id], event)] else t
  }

  function RunTable(t: Table, log: seq<Entry>): Table
    decreases |log|
  {
    if log == [] then t else ApplyTo(RunTable(t, log[..|log| - 1]), log[|log| - 1])
  }

  /** The events of the log that concern one row, from its arrival on. */
  function EventsOf(t: Table, log: seq<Entry>, id: string): seq<Event>
    decreases |log|
  {
    if log == [] then []
    else
      var earlier, e := log[..|log| - 1], log[|log| - 1];
      EventsOf(t, earlier, id) + if e.Passes? && e.id == id && id in RunTable(t, earlier) then [e.event] else []
  }

  ghost predicate SequentialLog(log: seq<Entry>) {
    forall k | 0 <= k < |log| && log[k].Passes? :: InOrder(log[k].event)
  }

  /** In every log of arrivals and passes, over any number of rows, each row's history is a run of its own events; so
      everything shown of one row's runs holds of all rows at once. */
  lemma {:induction false} RowsRunIndependently(log: seq<Entry>, id: string) returns (createdAt: real)
    requires id in RunTable(map[], log)
    ensures RunTable(map[], log)[id] == Run(NewRow(createdAt), EventsOf(map[], log, id))
    ensures SequentialLog(log) ==> Sequential(EventsOf(map[], log, id))
    decreases |log|
  {
    hide Apply, InOrder, Run;
    var n := |log| - 1;
    var earlier, e := log[..n], log[n];
    assert SequentialLog(log) ==> SequentialLog(earlier);
    if id in RunTable(map[], earlier) {
      createdAt := RowsRunIndependently(earlier, id);
      var events := EventsOf(map[], earlier, id);
      if e.Passes? && e.id == id { OneMoreEvent(NewRow(createdAt), events, e.event); } else { assert events + [] == events; }
    } else {
      createdAt := e.createdAt;
      NoEventsBeforeArrival(earlier, id);
      assert EventsOf(map[], log, id) == [];
      NoEvents(NewRow(createdAt));
    }
  }

  lemma OneMoreEvent(r: Row, events: seq<Event>, e: Event)
    ensures Run(r, events + [e]) == Apply(Run(r, events), e)
  {
    assert (events + [e])[..|events|] == events;
  }

  lemma NoEvents(r: Row)
    ensures Run(r, []) == r
  {
  }

  lemma {:induction false} NoEventsBeforeArrival(log: seq<Entry>, id: string)
    requires id !in RunTable(map[], log)
    ensures EventsOf(map[], log, id) == []
    decreases |log|
  {
    if log != [] {
      var earlier := log[..|log| - 1];
      assert id !in RunTable(map[], earlier);
      NoEventsBeforeArrival(earlier, id);
    }
  }

  /** The worker's whole table at any time: every row obeys the row invariant, has been POSTed at most five times, and has
      been changed at most seven times since it arrived. */
  lemma {:induction false} EveryRowOfTheTable(log: seq<Entry>, id: string)
    requires SequentialLog(log) && id in RunTable(map[], log)
    ensures var r := RunTable(map[], log)[id];
            && RowOk(r) && |r.posts| <= 5 && (forall k | 1 <= k <= |r.failures| :: Spaced(r, k))
            && exists createdAt :: r == Run(NewRow(createdAt), EventsOf(map[], log, id))
                                   && Changes(NewRow(createdAt), EventsOf(map[], log, id)) <= 7
  {
    var createdAt := RowsRunIndependently(log, id);
    var events := EventsOf(map[], log, id);
    RunOk(createdAt, events);
    RowsComeToRest(createdAt, events);
  }
}
