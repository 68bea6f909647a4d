/** The per-key sliding-window limiter: a Redis sorted set whose members are the request times. */
module RateLimit {
  // Clock readings in microseconds; a member of the sorted set is its own score.
  const WINDOW := 60_000_000
  const KEY_TTL := 120_000_000

  // What Redis holds under one key.
  datatype ZSet = ZSet(members: set<int>, expiresAt: int)

  /** The pipeline: lapse of the key, ZREMRANGEBYSCORE, ZADD, ZCARD, EXPIRE. */
  function Touch(z: ZSet, now: int): ZSet {
    var live := if now >= z.expiresAt then {} else z.members;
    ZSet((set m | m in live && m > now - WINDOW) + {now}, now + KEY_TTL)
  }

  class Limiter {
    var zset: ZSet

    constructor ()
      ensures zset == ZSet({}, 0)
    {
      zset := ZSet({}, 0);
    }

    method CheckRpmLimit(limitRpm: int, now: int) returns (allowed: bool, current: nat)
      modifies this
      ensures limitRpm <= 0 ==> allowed && current == 0 && zset == old(zset)
      ensures limitRpm > 0 ==> zset == Touch(old(zset), now) && current == |zset.members| && (allowed <==> current <= limitRpm)
    {
      if limitRpm <= 0 {
        return true, 0;
      }
      var windowStart := now - WINDOW;
      if now >= zset.expiresAt {
        zset := zset.(members := {});
      }
      zset := zset.(members := set m | m in zset.members && m > windowStart);
      zset := zset.(members := zset.members + {now});
      current := |zset.members|;
      zset := zset.(expiresAt := now + KEY_TTL);
      allowed := current <= limitRpm;
    }
  }

  // ---------- the full request log ----------

  /** The key after a run of requests at the given times. */
  function After(times: seq<int>): ZSet {
    if times == [] then ZSet({}, 0) else Touch(After(times[..|times| - 1]), times[|times| - 1])
  }

  /** Requests of the whole log in (now - 60 s, now], by their times. */
  function InWindow(times: seq<int>, now: int): (r: set<int>)
    ensures forall m <- r :: m <= now
  {
    set k | 0 <= k < |times| && now - 60_000_000 < times[k] <= now :: times[k]
  }

  ghost predicate Monotone(times: seq<int>) {
    forall j, k | 0 <= j < k < |times| :: times[j] <= times[k]
  }

  lemma InWindowAfterRequest(earlier: seq<int>, was: int, now: int)
    requires was <= now && forall k | 0 <= k < |earlier| :: earlier[k] <= was
    ensures InWindow(earlier + [now], now) == (set m | m in InWindow(earlier, was) && m > now - WINDOW) + {now}
  {
    var times := earlier + [now];
    assert times[|earlier|] in InWindow(times, now);
    forall m | m in InWindow(times, now) && m != now ensures m in InWindow(earlier, was) {
      var k :| 0 <= k < |times| && times[k] == m;
      assert earlier[k] in InWindow(earlier, was);
    }
    forall m | m in InWindow(earlier, was) && m > now - WINDOW ensures m in InWindow(times, now) {
      var k :| 0 <= k < |earlier| && earlier[k] == m;
      assert times[k] in InWindow(times, now);
    }
  }

  lemma MonotonePrefix(times: seq<int>)
    requires Monotone(times) && |times| >= 2
    ensures var n := |times|; var earlier := times[..n - 1];
            && Monotone(earlier) && earlier[n - 2] == times[n - 2] <= times[n - 1]
            && forall k | 0 <= k < n - 1 :: earlier[k] <= times[n - 2]
  {
  }

  /** With a clock that never goes back, the pruned set is always the whole log's last 60 seconds; the key's
      own expiry never drops a request that still counts. */
  lemma {:induction false} WindowIsWholeLog(times: seq<int>)
    requires Monotone(times) && times != []
    ensures After(times).members == InWindow(times, times[|times| - 1])
    ensures After(times).expiresAt == times[|times| - 1] + 120_000_000
  {
    hide Monotone, InWindow;
    var n, now := |times|, times[|times| - 1];
    var earlier := times[..n - 1];
    assert times == earlier + [now];
    if earlier == [] {
      InWindowAfterRequest([], now, now);
      NothingBeforeTheFirst(now);
    } else {
      MonotonePrefix(times);
      WindowIsWholeLog(earlier);
      InWindowAfterRequest(earlier, times[n - 2], now);
      PruningKeepsWindow(After(earlier), InWindow(earlier, times[n - 2]), times[n - 2], now);
    }
  }

  lemma NothingBeforeTheFirst(now: int)
    ensures InWindow([], now) == {}
  {
  }

  lemma PruningKeepsWindow(z: ZSet, window: set<int>, was: int, now: int)
    requires z == ZSet(window, was + KEY_TTL) && was <= now && forall m <- window :: m <= was
    ensures Touch(z, now) == ZSet((set m | m in window && m > now - WINDOW) + {now}, now + KEY_TTL)
  {
  }

  // ---------- what a caller is promised ----------

  /** The verdict on request k of the log, under a limit that is set. */
  predicate Allowed(times: seq<int>, limit: int, k: nat)
    requires k < |times|
  {
    |After(times[..k + 1]).members| <= limit
  }

  /** Requests j <= k of the log no older than 60 s at request k, itself included and rejected ones too. */
  ghost function Recent(times: seq<int>, k: nat): set<nat>
    requires k < |times|
  {
    set j: nat | j <= k && times[k] - 60_000_000 < times[j]
  }

  /** The microseconds of these requests. */
  ghost function TimesOf(times: seq<int>, indices: set<nat>): set<int>
    requires forall j <- indices :: j < |times|
  {
    set j | j in indices :: times[j]
  }

  /** No two of these requests share a microsecond. */
  ghost predicate Apart(times: seq<int>, indices: set<nat>)
    requires forall j <- indices :: j < |times|
  {
    forall i, j | i in indices && j in indices && i != j :: times[i] != times[j]
  }

  lemma {:induction false} SubsetIsSmaller<T>(a: set<T>, b: set<T>)
    requires a <= b
    ensures |a| <= |b|
  {
    if a != {} {
      var x :| x in a;
      SubsetIsSmaller(a - {x}, b - {x});
    }
  }

  /** Requests number at least as many as their microseconds, and exactly as many when none is shared. */
  lemma {:induction false} AsManyTimesIffApart(times: seq<int>, indices: set<nat>)
    requires forall j <- indices :: j < |times|
    ensures |TimesOf(times, indices)| <= |indices|
    ensures |TimesOf(times, indices)| == |indices| <==> Apart(times, indices)
  {
    if indices == {} {
      assert TimesOf(times, indices) == {};
    } else {
      var x :| x in indices;
      var fewer := indices - {x};
      AsManyTimesIffApart(times, fewer);
      assert TimesOf(times, indices) == TimesOf(times, fewer) + {times[x]};
      if times[x] in TimesOf(times, fewer) {
        var j :| j in fewer && times[j] == times[x];
        assert !Apart(times, indices);
      } else {
        assert Apart(times, indices) <==> Apart(times, fewer) by {
          forall j | j in fewer ensures times[j] != times[x] { assert times[j] in TimesOf(times, fewer); }
        }
      }
    }
  }

  /** The count the limiter compares is that of the microseconds in which requests of the last 60 seconds came. */
  lemma {:induction false} CountsMicroseconds(times: seq<int>, k: nat)
    requires Monotone(times) && k < |times|
    ensures After(times[..k + 1]).members == TimesOf(times, Recent(times, k))
  {
    var prefix := times[..k + 1];
    WindowIsWholeLog(prefix);
    assert prefix[|prefix| - 1] == times[k];
    forall x | x in InWindow(prefix, times[k]) ensures x in TimesOf(times, Recent(times, k)) {
      var j :| 0 <= j < |prefix| && prefix[j] == x;
      assert j in Recent(times, k);
    }
    forall j | j in Recent(times, k) ensures times[j] in InWindow(prefix, times[k]) {
      assert prefix[j] == times[j];
    }
  }

  /** A request is allowed exactly when those microseconds number at most the limit. */
  lemma {:induction false} AllowedIffMicrosecondsWithinLimit(times: seq<int>, limit: int, k: nat)
    requires Monotone(times) && k < |times|
    ensures Allowed(times, limit, k) <==> |TimesOf(times, Recent(times, k))| <= limit
  {
    CountsMicroseconds(times, k);
  }

  ghost predicate CountsRequests(times: seq<int>, k: nat)
    requires k < |times|
  {
    forall limit: int | limit > 0 :: Allowed(times, limit, k) <==> |Recent(times, k)| <= limit
  }

  /** It is allowed exactly when the requests themselves number at most the limit, whatever the limit, if and only if no
      two of them share a microsecond. */
  lemma {:induction false} CountsRequestsIffApart(times: seq<int>, k: nat)
    requires Monotone(times) && k < |times|
    ensures CountsRequests(times, k) <==> Apart(times, Recent(times, k))
  {
    var recent := Recent(times, k);
    var limit := |TimesOf(times, recent)|;
    AllowedIffMicrosecondsWithinLimit(times, limit, k);
    AsManyTimesIffApart(times, recent);
    assert k in recent;
    assert times[k] in TimesOf(times, recent);
    assert limit > 0;
    if Apart(times, recent) {
      forall l: int | l > 0 ensures Allowed(times, l, k) <==> |recent| <= l { AllowedIffMicrosecondsWithinLimit(times, l, k); }
    } else {
      assert Allowed(times, limit, k) && |recent| > limit;
    }
  }

  // ---------- any window of 60 seconds ----------

  /** Allowed requests in the half-open window (from, from + 60 s]. */
  ghost function AllowedIn(times: seq<int>, limit: int, from: int): set<nat> {
    set k: nat | k < |times| && from < times[k] <= from + 60_000_000 && Allowed(times, limit, k)
  }

  /** Wherever the 60-second window is laid over the log, its allowed requests came in at most `limit` microseconds: they
      number at most `limit` unless two of them share one. */
  lemma {:induction false} NoWindowExceedsLimit(times: seq<int>, limit: nat, from: int)
    requires Monotone(times) && limit > 0
    ensures |TimesOf(times, AllowedIn(times, limit, from))| <= limit
    ensures Apart(times, AllowedIn(times, limit, from)) ==> |AllowedIn(times, limit, from)| <= limit
  {
    var allowed := AllowedIn(times, limit, from);
    AsManyTimesIffApart(times, allowed);
    if allowed != {} {
      var last := Latest(allowed);
      AllowedIffMicrosecondsWithinLimit(times, limit, last);
      assert allowed <= Recent(times, last);
      SubsetIsSmaller(TimesOf(times, allowed), TimesOf(times, Recent(times, last)));
    } else {
      assert TimesOf(times, allowed) == {};
    }
  }

  lemma {:induction false} Latest(s: set<nat>) returns (last: nat)
    requires s != {}
    ensures last in s && forall k <- s :: k <= last
  {
    var some :| some in s;
    last := some;
    if s != {some} {
      var other := Latest(s - {some});
      if other > some { last := other; }
      forall k | k in s ensures k <= last {
        if k != some { assert k in s - {some}; }
      }
    }
  }

  /** Any number of requests in one microsecond are all allowed, whatever the limit. */
  lemma {:induction false} SameMicrosecondCountsOnce(n: nat, t: int, limit: nat)
    requires limit > 0
    ensures var times := seq(n, _ => t);
            && Monotone(times) && (forall k | 0 <= k < n :: Allowed(times, limit, k))
            && |AllowedIn(times, limit, t - WINDOW)| == n
  {
    var times := seq(n, _ => t);
    forall k: nat | k < n ensures Allowed(times, limit, k) {
      AllowedIffMicrosecondsWithinLimit(times, limit, k);
      SubsetIsSmaller(TimesOf(times, Recent(times, k)), {t});
    }
    assert AllowedIn(times, limit, t - WINDOW) == FirstNumbers(n);
  }

  ghost function FirstNumbers(n: nat): (r: set<nat>)
    ensures |r| == n && forall k: nat :: k in r <==> k < n
  {
    if n == 0 then {} else FirstNumbers(n - 1) + {n - 1}
  }
}
