/** The health gate (`health.rs`): poll until enough consecutive good probes, or a deadline. */
module Health {
  import opened Common
  import opened Types

  /** How long a rollout waits for a surged replica before giving up. */
  function RolloutHealthCeilingMs(hc: HealthCheck): int {
    Max(30_000, (hc.timeoutMs + hc.intervalMs) * hc.healthyThreshold * 8)
  }

  /** Probe `n` completes a run of `threshold` consecutive good probes (at least one). */
  ghost predicate Streak(probe: nat -> bool, threshold: int, n: nat) {
    n + 1 >= threshold && forall k: nat :: n - Max(1, threshold) < k <= n ==> probe(k)
  }

  /** The gate opens at probe `n`: the first streak, with no earlier reading of the clock past the deadline. */
  ghost predicate OpensAt(probe: nat -> bool, clock: nat -> int, threshold: int, ceilingMs: int, n: nat) {
    Streak(probe, threshold, n)
    && forall k: nat :: k < n ==> !Streak(probe, threshold, k) && !Reaches(clock, clock(0) + ceilingMs, k)
  }

  ghost predicate PassesGate(hc: HealthCheck, ceilingMs: int, probe: nat -> bool, clock: nat -> int) {
    exists n: nat :: OpensAt(probe, clock, hc.healthyThreshold, ceilingMs, n)
  }

  /** The clock is read once before the first probe and once after each probe. */
  ghost predicate Advances(clock: nat -> int) {
    forall bound: int :: EventuallyReaches(clock, bound)
  }

  ghost predicate EventuallyReaches(clock: nat -> int, bound: int) { exists n: nat :: Reaches(clock, bound, n) }

  ghost predicate Reaches(clock: nat -> int, bound: int, n: nat) { clock(n + 1) >= bound }

  /** The `good` most recent of the first `n` probes are good, and no more than those. */
  ghost predicate Tally(probe: nat -> bool, n: nat, good: nat) {
    && good <= n
    && (forall k: nat :: n - good <= k < n ==> probe(k))
    && (good < n ==> !probe(n - good - 1))
  }

  lemma TallyStreak(probe: nat -> bool, n: nat, good: nat, threshold: int)
    requires Tally(probe, n + 1, good)
    ensures Streak(probe, threshold, n) <==> good >= Max(1, threshold)
  {
    if good < Max(1, threshold) && n + 1 >= threshold {
      if good <= n { assert !probe(n + 1 - good - 1); }
    }
  }

  /** The loop answers true exactly when the gate opens. */
  method WaitHealthy(hc: HealthCheck, ceilingMs: int, probe: nat -> bool, clock: nat -> int) returns (ok: bool)
    requires Advances(clock)
    ensures ok <==> PassesGate(hc, ceilingMs, probe, clock)
  {
    var deadline := clock(0) + ceilingMs;
    assert EventuallyReaches(clock, deadline);
    ghost var last: nat :| Reaches(clock, deadline, last);
    var consecutive: nat := 0;
    var i: nat := 0;
    while true
      invariant Tally(probe, i, consecutive)
      invariant i <= last
      invariant forall k: nat :: k < i ==> !Streak(probe, hc.healthyThreshold, k)
      invariant forall k: nat :: k < i ==> !Reaches(clock, deadline, k)
      decreases last - i
    {
      if probe(i) {
        consecutive := consecutive + 1;
        TallyStreak(probe, i, consecutive, hc.healthyThreshold);
        if consecutive >= hc.healthyThreshold {
          assert OpensAt(probe, clock, hc.healthyThreshold, ceilingMs, i);
          return true;
        }
      } else {
        consecutive := 0;
        TallyStreak(probe, i, consecutive, hc.healthyThreshold);
      }
      assert !Streak(probe, hc.healthyThreshold, i);
      if clock(i + 1) >= deadline {
        return false;
      }
      i := i + 1;
    }
  }
}
