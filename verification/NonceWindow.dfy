/** Replay protection of signed requests: a timestamp window and a nonce claimed in Redis with a TTL. */
module NonceWindow {
  import opened Wrappers

  // Clock readings in milliseconds; skew, TTL and the signed timestamp in seconds.
  datatype Request = Request(key: string, nonce: string, ts: int, checkedAt: int, claimedAt: int, signatureOk: bool)

  type Claims = map<(string, string), int>   // expiry of each claimed nonce

  function Abs(x: int): nat { if x < 0 then -x else x }

  /** int(time.time()) for a clock past the epoch. */
  function Seconds(ms: int): int { ms / 1000 }

  predicate InSkew(r: Request, skew: nat) {
    Abs(Seconds(r.checkedAt) - r.ts) <= skew
  }

  predicate Held(c: Claims, key: string, nonce: string, now: int) {
    (key, nonce) in c && now < c[(key, nonce)]
  }

  /** SET NX EX: the claims afterwards; the nonce was seen exactly when it was held before.  Redis refuses a TTL that is
      not positive. */
  function Claim(c: Claims, key: string, nonce: string, now: int, ttl: int): Claims {
    if ttl <= 0 || Held(c, key, nonce, now) then c else c[(key, nonce) := now + 1000 * ttl]
  }

  predicate Accepts(c: Claims, r: Request, skew: nat, ttl: int) {
    InSkew(r, skew) && r.signatureOk && ttl > 0 && !Held(c, r.key, r.nonce, r.claimedAt)
  }

  class Verifier {
    var claims: Claims
    const skew: nat
    const ttl: int

    constructor (skew: nat, ttl: int)
      ensures claims == map[] && this.skew == skew && this.ttl == ttl
    {
      claims, this.skew, this.ttl := map[], skew, ttl;
    }

    /** None when Redis refuses the command. */
    method SeenNonce(key: string, nonce: string, now: int) returns (seen: Option<bool>)
      modifies this
      ensures seen == if ttl <= 0 then None else Some(Held(old(claims), key, nonce, now))
      ensures claims == Claim(old(claims), key, nonce, now, ttl)
    {
      if ttl <= 0 {
        return None;
      }
      var held := (key, nonce) in claims && now < claims[(key, nonce)];
      if !held {
        claims := claims[(key, nonce) := now + 1000 * ttl];
      }
      seen := Some(held);
    }

    method VerifyRequest(r: Request) returns (accepted: bool)
      modifies this
      ensures accepted == Accepts(old(claims), r, skew, ttl)
      ensures claims == After(old(claims), r, skew, ttl)
    {
      var now := r.checkedAt / 1000;
      if Abs(now - r.ts) > skew {
        return false;
      }
      if !r.signatureOk {
        return false;
      }
      var seen := SeenNonce(r.key, r.nonce, r.claimedAt);
      accepted := seen == Some(false);
    }
  }

  /** The claim is made only after the window and the signature have passed. */
  function After(c: Claims, r: Request, skew: nat, ttl: int): Claims {
    if InSkew(r, skew) && r.signatureOk then Claim(c, r.key, r.nonce, r.claimedAt, ttl) else c
  }

  function Run(requests: seq<Request>, skew: nat, ttl: int): Claims {
    if requests == [] then map[]
    else After(Run(requests[..|requests| - 1], skew, ttl), requests[|requests| - 1], skew, ttl)
  }

  predicate AcceptedAt(requests: seq<Request>, k: nat, skew: nat, ttl: int)
    requires k < |requests|
  {
    Accepts(Run(requests[..k], skew, ttl), requests[k], skew, ttl)
  }

  /** Requests in the order of their claims, each claimed no earlier than checked. */
  ghost predicate ClaimOrder(requests: seq<Request>) {
    && (forall k | 0 <= k < |requests| :: requests[k].checkedAt <= requests[k].claimedAt)
    && (forall j, k | 0 <= j < k < |requests| :: requests[j].claimedAt <= requests[k].claimedAt)
  }

  /** An accepted nonce stays held at least until TTL after its claim. */
  lemma {:induction false} ClaimOutlastsTtl(requests: seq<Request>, j: nat, skew: nat, ttl: int)
    requires ClaimOrder(requests) && j < |requests| && AcceptedAt(requests, j, skew, ttl)
    ensures var id := (requests[j].key, requests[j].nonce);
            id in Run(requests, skew, ttl) && Run(requests, skew, ttl)[id] >= requests[j].claimedAt + 1000 * ttl
  {
    var earlier := requests[..|requests| - 1];
    if j < |earlier| {
      assert requests[..j] == earlier[..j];
      ClaimOutlastsTtl(earlier, j, skew, ttl);
    }
  }

  /** A nonce held at any time was claimed by an accepted request less than TTL earlier. */
  lemma {:induction false} HeldByAnAcceptance(requests: seq<Request>, key: string, nonce: string, now: int, skew: nat, ttl: int)
    returns (j: nat)
    requires var c := Run(requests, skew, ttl); (key, nonce) in c && now < c[(key, nonce)]
    ensures j < |requests| && AcceptedAt(requests, j, skew, ttl)
    ensures requests[j].key == key && requests[j].nonce == nonce && now < requests[j].claimedAt + 1000 * ttl
  {
    var n := |requests| - 1;
    var earlier, r := requests[..n], requests[n];
    if r.key == key && r.nonce == nonce && Accepts(Run(earlier, skew, ttl), r, skew, ttl) {
      j := n;
    } else {
      j := HeldByAnAcceptance(earlier, key, nonce, now, skew, ttl);
      assert earlier[..j] == requests[..j];
    }
  }

  /** A request is accepted exactly when its timestamp is within the skew, its signature is good, Redis takes the TTL, and
      no earlier accepted request claimed its nonce under its key less than TTL before it. */
  lemma AcceptedIff(requests: seq<Request>, k: nat, skew: nat, ttl: int)
    requires ClaimOrder(requests) && k < |requests|
    ensures var r := requests[k];
            AcceptedAt(requests, k, skew, ttl) <==>
              && r.ts - skew <= r.checkedAt / 1000 <= r.ts + skew && r.signatureOk && ttl > 0
              && forall j | 0 <= j < k && AcceptedAt(requests, j, skew, ttl)
                            && requests[j].key == r.key && requests[j].nonce == r.nonce ::
                   requests[j].claimedAt + 1000 * ttl <= r.claimedAt
  {
    var r, prefix := requests[k], requests[..k];
    assert forall j | 0 <= j < k :: prefix[..j] == requests[..j] && prefix[j] == requests[j];
    if Held(Run(prefix, skew, ttl), r.key, r.nonce, r.claimedAt) {
      var j := HeldByAnAcceptance(prefix, r.key, r.nonce, r.claimedAt, skew, ttl);
      assert AcceptedAt(requests, j, skew, ttl);
    } else {
      forall j | 0 <= j < k && AcceptedAt(requests, j, skew, ttl) && requests[j].key == r.key && requests[j].nonce == r.nonce
        ensures requests[j].claimedAt + 1000 * ttl <= r.claimedAt
      {
        assert AcceptedAt(prefix, j, skew, ttl);
        ClaimOutlastsTtl(prefix, j, skew, ttl);
      }
    }
  }

  /** A request with a bad signature, or out of the window, makes no claim... */
  lemma {:induction false} RefusedClaimsNothing(a: seq<Request>, r: Request, b: seq<Request>, skew: nat, ttl: int)
    requires !r.signatureOk || r.checkedAt / 1000 < r.ts - skew || r.checkedAt / 1000 > r.ts + skew
    ensures Run(a + [r] + b, skew, ttl) == Run(a + b, skew, ttl)
    decreases |b|
  {
    var with, without := a + [r] + b, a + b;
    if b == [] {
      assert with[..|with| - 1] == a && without == a;
    } else {
      RefusedClaimsNothing(a, r, b[..|b| - 1], skew, ttl);
      assert with[..|with| - 1] == a + [r] + b[..|b| - 1] && without[..|without| - 1] == a + b[..|b| - 1];
    }
  }

  /** ...so it is never accepted, and without it every other verdict is the same. */
  lemma RefusedLeavesNoTrace(a: seq<Request>, r: Request, b: seq<Request>, skew: nat, ttl: int)
    requires !r.signatureOk || r.checkedAt / 1000 < r.ts - skew || r.checkedAt / 1000 > r.ts + skew
    ensures !AcceptedAt(a + [r] + b, |a|, skew, ttl)
    ensures forall k | 0 <= k < |a| :: AcceptedAt(a + [r] + b, k, skew, ttl) == AcceptedAt(a + b, k, skew, ttl)
    ensures forall k | |a| <= k < |a + b| :: AcceptedAt(a + [r] + b, k + 1, skew, ttl) == AcceptedAt(a + b, k, skew, ttl)
  {
    var with, without := a + [r] + b, a + b;
    assert with[|a|] == r;
    forall k | 0 <= k < |a| ensures AcceptedAt(with, k, skew, ttl) == AcceptedAt(without, k, skew, ttl) {
      assert with[..k] == without[..k];
    }
    forall k | |a| <= k < |a + b| ensures AcceptedAt(with, k + 1, skew, ttl) == AcceptedAt(without, k, skew, ttl) {
      assert with[..k + 1] == a + [r] + b[..k - |a|] && without[..k] == a + b[..k - |a|];
      RefusedClaimsNothing(a, r, b[..k - |a|], skew, ttl);
    }
  }

  /** Two acceptances of one (key, nonce) are at least the TTL apart, whatever their timestamps. */
  lemma AcceptancesAreTtlApart(requests: seq<Request>, j: nat, k: nat, skew: nat, ttl: int)
    requires ClaimOrder(requests) && j < k < |requests|
    requires requests[j].key == requests[k].key && requests[j].nonce == requests[k].nonce
    requires AcceptedAt(requests, j, skew, ttl) && AcceptedAt(requests, k, skew, ttl)
    ensures requests[k].claimedAt - requests[j].claimedAt >= 1000 * ttl
  {
    var prefix := requests[..k];
    assert prefix[..j] == requests[..j] && prefix[j] == requests[j];
    ClaimOutlastsTtl(prefix, j, skew, ttl);
  }

  ghost predicate AtMostOnce(requests: seq<Request>, skew: nat, ttl: int) {
    forall j, k | 0 <= j < k < |requests| && AcceptedAt(requests, j, skew, ttl) && AcceptedAt(requests, k, skew, ttl)
                  && requests[j].key == requests[k].key && requests[j].nonce == requests[k].nonce ::
      requests[j].ts != requests[k].ts
  }

  /** Claims follow checks by at most `delay` milliseconds. */
  ghost predicate Prompt(requests: seq<Request>, delay: nat) {
    forall k | 0 <= k < |requests| :: requests[k].claimedAt <= requests[k].checkedAt + delay
  }

  /** The TTL outlasts both skews, the rest of the last second and the lag between check and claim. */
  predicate TtlCovers(skew: nat, ttl: int, delay: nat) {
    1000 * ttl >= 1000 * (2 * skew + 1) + delay
  }

  /** Then no signed (key, ts, nonce) is accepted twice. */
  lemma LongTtlPreventsReplay(requests: seq<Request>, skew: nat, ttl: int, delay: nat)
    requires ClaimOrder(requests) && Prompt(requests, delay) && TtlCovers(skew, ttl, delay)
    ensures AtMostOnce(requests, skew, ttl)
  {
    forall j, k | 0 <= j < k < |requests| && AcceptedAt(requests, j, skew, ttl) && AcceptedAt(requests, k, skew, ttl)
                  && requests[j].key == requests[k].key && requests[j].nonce == requests[k].nonce
      ensures requests[j].ts != requests[k].ts
    {
      AcceptancesAreTtlApart(requests, j, k, skew, ttl);
    }
  }

  /** The same signed request checked at one instant and claimed at another. */
  function Sent(ts: int, checkedAt: int, claimedAt: int): Request {
    Request("k", "n", ts, checkedAt, claimedAt, true)
  }

  /** Otherwise there is a replay: first at the early edge of the window, again when the claim has lapsed, checked by the
      end of the window's last second. */
  lemma ReplayWhenTtlIsShort(skew: nat, ttl: int, delay: nat)
    requires 0 < ttl && !TtlCovers(skew, ttl, delay)
    ensures exists requests :: ClaimOrder(requests) && Prompt(requests, delay) && !AtMostOnce(requests, skew, ttl)
  {
    var latest := 1000 * (2 * skew) + 999;
    var a, b := Sent(skew, 0, 0), Sent(skew, if 1000 * ttl <= latest then 1000 * ttl else latest, 1000 * ttl);
    var run := [a, b];
    assert run[..0] == [] && run[..1] == [a] && [a][..0] == [];
    assert Run(run[..1], skew, ttl) == Claim(map[], "k", "n", 0, ttl);
    assert 0 <= Seconds(b.checkedAt) <= 2 * skew;
    assert AcceptedAt(run, 0, skew, ttl) && AcceptedAt(run, 1, skew, ttl);
    assert run[0].ts == run[1].ts;
    assert ClaimOrder(run) && Prompt(run, delay) && !AtMostOnce(run, skew, ttl);
  }

  /** For every bound on the lag between check and claim, replay is impossible in every run exactly when the TTL covers
      it, or is one that Redis refuses, so that nothing is accepted at all. */
  lemma NoReplayIffTtlCoversLag(skew: nat, ttl: int, delay: nat)
    ensures (forall requests | ClaimOrder(requests) && Prompt(requests, delay) :: AtMostOnce(requests, skew, ttl))
       <==> ttl <= 0 || TtlCovers(skew, ttl, delay)
  {
    if ttl <= 0 {
    } else if TtlCovers(skew, ttl, delay) {
      forall requests | ClaimOrder(requests) && Prompt(requests, delay) ensures AtMostOnce(requests, skew, ttl) {
        LongTtlPreventsReplay(requests, skew, ttl, delay);
      }
    } else {
      ReplayWhenTtlIsShort(skew, ttl, delay);
    }
  }

  /** For claims made at the instant of the check and a TTL Redis takes that is TTL > 2 * skew. */
  lemma NoReplayIffTtlExceedsTwiceSkew(skew: nat, ttl: int)
    ensures (forall requests | ClaimOrder(requests) && Prompt(requests, 0) :: AtMostOnce(requests, skew, ttl)) <==> ttl <= 0 || ttl > 2 * skew
  {
    NoReplayIffTtlCoversLag(skew, ttl, 0);
  }

  /** The code bounds the lag by nothing, so no TTL under which anything is accepted excludes replay in all runs. */
  lemma NoTtlCoversUnboundedLag(skew: nat, ttl: int)
    ensures (forall requests | ClaimOrder(requests) :: AtMostOnce(requests, skew, ttl)) <==> ttl <= 0
  {
    if ttl > 0 {
      var delay := 1000 * ttl;
      ReplayWhenTtlIsShort(skew, ttl, delay);
      var requests :| ClaimOrder(requests) && Prompt(requests, delay) && !AtMostOnce(requests, skew, ttl);
    }
  }

  /** The time a second acceptance leaves to both checks: what the window is longer than the TTL, and the lag. */
  function Slack(skew: nat, ttl: int, delay: nat): int {
    1000 * (2 * skew + 1) + delay - 1000 * ttl
  }

  /** Whatever the lag, a replay's first check lies within the slack of the window's start, and its second within the
      slack of the window's end. */
  lemma ReplayAtTheEdges(requests: seq<Request>, j: nat, k: nat, skew: nat, ttl: int, delay: nat)
    requires ClaimOrder(requests) && Prompt(requests, delay) && j < k < |requests|
    requires requests[j].key == requests[k].key && requests[j].nonce == requests[k].nonce && requests[j].ts == requests[k].ts
    requires AcceptedAt(requests, j, skew, ttl) && AcceptedAt(requests, k, skew, ttl)
    ensures var ts, slack := requests[j].ts, Slack(skew, ttl, delay);
            && 1000 * (ts - skew) <= requests[j].checkedAt < 1000 * (ts - skew) + slack
            && 1000 * (ts + skew + 1) - slack <= requests[k].checkedAt < 1000 * (ts + skew + 1)
  {
    AcceptancesAreTtlApart(requests, j, k, skew, ttl);
  }

  /** With the shipped 600 = 2 * 300 and claims within `delay` of their checks, a replay is first checked less than a second
      and the lag after the window opens, and again less than a second and the lag before it closes. */
  lemma ShippedReplayWithLag(requests: seq<Request>, j: nat, k: nat, delay: nat)
    requires ClaimOrder(requests) && Prompt(requests, delay) && j < k < |requests|
    requires requests[j].key == requests[k].key && requests[j].nonce == requests[k].nonce && requests[j].ts == requests[k].ts
    requires AcceptedAt(requests, j, 300, 600) && AcceptedAt(requests, k, 300, 600)
    ensures 1000 * (requests[j].ts - 300) <= requests[j].checkedAt < 1000 * (requests[j].ts - 299) + delay
    ensures 1000 * (requests[k].ts + 300) - delay <= requests[k].checkedAt < 1000 * (requests[k].ts + 301)
  {
    ReplayAtTheEdges(requests, j, k, 300, 600, delay);
  }

  /** For instant claims: once in second ts - 300 and once in second ts + 300. */
  lemma ShippedReplayIsOneInstant(requests: seq<Request>, j: nat, k: nat)
    requires ClaimOrder(requests) && Prompt(requests, 0) && j < k < |requests|
    requires requests[j].key == requests[k].key && requests[j].nonce == requests[k].nonce && requests[j].ts == requests[k].ts
    requires AcceptedAt(requests, j, 300, 600) && AcceptedAt(requests, k, 300, 600)
    ensures Seconds(requests[j].checkedAt) == requests[j].ts - 300 && Seconds(requests[k].checkedAt) == requests[k].ts + 300
  {
    ShippedReplayWithLag(requests, j, k, 0);
  }
}
