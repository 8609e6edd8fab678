/** `execution_recovery.py`: retries, their delays, and lease renewals. Instants are numbers of seconds; errors are
    None. */
module Retry {
  import opened Utf8

  function Pow2(k: nat): (p: nat)
    ensures p >= 1
  {
    if k == 0 then 1 else 2 * Pow2(k - 1)
  }

  function Least(a: int, b: int): int { if a <= b then a else b }

  /** `retry_delay_seconds`; a left shift multiplies by a power of two. */
  function DelaySeconds(attempt: int, base: int, most: int): Option<int>
  {
    if attempt < 1 || base < 1 || most < base then None
    else Some(Least(most, base * Pow2(attempt - 1)))
  }

  datatype Outcome = Succeeded | Failed | TimedOut | Aborted

  /** One ended attempt, as `execution_retry_allowed` sees it. */
  datatype Ended = Ended(requested: bool, outcome: Outcome, sourceAvailable: bool)

  predicate RetryAllowed(e: Ended, attempt: int, maxAttempts: int)
  {
    e.requested && e.sourceAvailable && (e.outcome.Failed? || e.outcome.TimedOut?) && 1 <= attempt < maxAttempts
  }

  /** Attempts 1, 2, … of one execution, each of which was retried. */
  predicate Retried(chain: seq<Ended>, maxAttempts: int)
  {
    forall i :: 0 <= i < |chain| ==> RetryAllowed(chain[i], i + 1, maxAttempts)
  }

  /** Attempts are retried exactly as long as each asked for it, failed or ran out of time with its source still there,
      and was not the last one allowed. */
  lemma RetriedExactly(chain: seq<Ended>, maxAttempts: int)
    ensures Retried(chain, maxAttempts) <==>
            && (chain != [] ==> |chain| < maxAttempts)
            && forall e :: e in chain ==>
              e.requested && e.sourceAvailable && (e.outcome == Failed || e.outcome == TimedOut)
  {
    if Retried(chain, maxAttempts) && chain != [] {
      assert RetryAllowed(chain[|chain| - 1], |chain| - 1 + 1, maxAttempts);
      forall e | e in chain ensures e.requested && e.sourceAvailable && (e.outcome == Failed || e.outcome == TimedOut) {
        var i :| 0 <= i < |chain| && chain[i] == e;
        assert RetryAllowed(chain[i], i + 1, maxAttempts);
      }
    }
  }

  /** The delay before each retry of a chain, and their sum. */
  function Delay(k: nat, base: int, most: int): (d: int)
    requires 1 <= base <= most
    ensures base <= d <= most
  {
    DelayInRange(k, base, most);
    DelaySeconds(k + 1, base, most).value
  }

  lemma DelayInRange(k: nat, base: int, most: int)
    requires 1 <= base <= most
    ensures base <= DelaySeconds(k + 1, base, most).value <= most
  {
    assert base * Pow2(k) >= base * 1;
  }

  function TotalDelay(retries: nat, base: int, most: int): int
    requires 1 <= base <= most
  {
    if retries == 0 then 0 else TotalDelay(retries - 1, base, most) + Delay(retries - 1, base, most)
  }

  /** A chain has at most maxAttempts - 1 retries, which wait at most (maxAttempts - 1) * most seconds in all. */
  lemma {:induction false} ChainIsBounded(chain: seq<Ended>, maxAttempts: int, base: int, most: int)
    requires Retried(chain, maxAttempts) && 1 <= base <= most
    ensures chain != [] ==> |chain| <= maxAttempts - 1
    ensures TotalDelay(|chain|, base, most) <= |chain| * most
    ensures chain != [] ==> TotalDelay(|chain|, base, most) <= (maxAttempts - 1) * most
  {
    hide TotalDelay, Delay;
    TotalBound(|chain|, base, most);
    if chain != [] {
      assert RetryAllowed(chain[|chain| - 1], |chain|, maxAttempts);
      Scaled(|chain|, maxAttempts - 1, most);
    }
  }

  lemma Scaled(a: int, b: int, k: int)
    requires a <= b && 0 <= k
    ensures a * k <= b * k
  {
  }

  lemma {:induction false} TotalBound(retries: nat, base: int, most: int)
    requires 1 <= base <= most
    ensures retries * base <= TotalDelay(retries, base, most) <= retries * most
  {
    if retries > 0 {
      TotalBound(retries - 1, base, most);
      assert retries * most == (retries - 1) * most + most;
      assert retries * base == (retries - 1) * base + base;
    }
  }

  /** Delays never shrink, and once one reaches the limit all later ones are the limit. */
  lemma {:induction false} DelaysGrow(i: nat, j: nat, base: int, most: int)
    requires 1 <= base <= most && i <= j
    ensures Delay(i, base, most) <= Delay(j, base, most)
    ensures Delay(i, base, most) == most ==> Delay(j, base, most) == most
  {
    if i < j {
      DelaysGrow(i, j - 1, base, most);
      assert base * Pow2(j) == 2 * (base * Pow2(j - 1));
    }
  }

  /** While the limit is not reached the delays double, and their sum is one base short of the next. */
  lemma {:induction false} TotalWhileDoubling(retries: nat, base: int, most: int)
    requires 1 <= base <= most && base * Pow2(retries) <= most
    ensures TotalDelay(retries, base, most) == base * Pow2(retries) - base
    ensures Delay(retries, base, most) == base * Pow2(retries)
  {
    if retries > 0 {
      assert base * Pow2(retries) == 2 * (base * Pow2(retries - 1));
      TotalWhileDoubling(retries - 1, base, most);
    }
  }

  // ---- leases ----

  /** `clamp_lease_expiry`. */
  function ClampExpiry(proposed: int, claimed: int, lifetime: int, deadline: int): (r: Option<int>)
    ensures r.Some? <==> lifetime >= 1 && deadline > claimed
    ensures r.Some? ==> r.value <= proposed && r.value <= claimed + lifetime && r.value <= deadline
    ensures r.Some? ==> r.value == proposed || r.value == claimed + lifetime || r.value == deadline
  {
    if lifetime < 1 || deadline <= claimed then None else Some(Least(proposed, Least(claimed + lifetime, deadline)))
  }

  /** The expiry after a claim and any renewals, each proposed relative to whatever the expiry then was. */
  function Expiry(claimed: int, lifetime: int, deadline: int, first: int, renewals: seq<int -> int>): Option<int>
  {
    if renewals == [] then ClampExpiry(first, claimed, lifetime, deadline)
    else
      var n := |renewals| - 1;
      match Expiry(claimed, lifetime, deadline, first, renewals[..n])
      case None => None
      case Some(expiry) => ClampExpiry(renewals[n](expiry), claimed, lifetime, deadline)
  }

  /** No sequence of renewals takes a lease past its lifetime or the deadline of its execution; and renewals that only
      extend never shorten it. */
  lemma {:induction false} ExpiryIsBounded(claimed: int, lifetime: int, deadline: int, first: int,
                                           renewals: seq<int -> int>)
    requires lifetime >= 1 && deadline > claimed
    ensures var r := Expiry(claimed, lifetime, deadline, first, renewals);
            && r.Some? && r.value <= claimed + lifetime && r.value <= deadline
            && ((forall i, x :: 0 <= i < |renewals| ==> renewals[i](x) >= x) ==>
                  ClampExpiry(first, claimed, lifetime, deadline).value <= r.value)
  {
    if renewals != [] {
      var n := |renewals| - 1;
      ExpiryIsBounded(claimed, lifetime, deadline, first, renewals[..n]);
      assert forall i :: 0 <= i < n ==> renewals[..n][i] == renewals[i];
      var before := Expiry(claimed, lifetime, deadline, first, renewals[..n]).value;
      if forall i, x :: 0 <= i < |renewals| ==> renewals[i](x) >= x { assert renewals[n](before) >= before; }
    }
  }
}
