/** The numbers of a drift alert: the subscriber's subtraction, the policy's threshold
    and the rounding to minutes (notification.subscriber.ts, drift-policy.ts,
    notification.service.ts). */
module Drift {
  import opened Domain
  import opened TimingEngine

  const DEFAULT_THRESHOLD_MINUTES := 10.0

  /** `readMinutesOverride`: the variable parsed as a number, if it is a finite one. */
  function ThresholdMinutes(override: Option<real>): (m: real)
    ensures m > 0.0
  {
    if override.Some? && override.value > 0.0 then override.value else DEFAULT_THRESHOLD_MINUTES
  }

  /** A positive override counts as it stands; anything else is ten minutes. */
  lemma ThresholdIs(override: Option<real>)
    ensures override.Some? && override.value > 0.0 ==> ThresholdMinutes(override) == override.value
    ensures override.None? || override.value <= 0.0 ==> ThresholdMinutes(override) == 10.0
  {
  }

  predicate IsSignificant(driftMs: int, threshold: real) {
    (if driftMs < 0 then -driftMs else driftMs) as real >= threshold * MS_PER_MINUTE
  }

  /** `Math.round(driftMs / 60_000)`: halves go up, toward positive infinity. */
  function RoundToMinutes(driftMs: int): int {
    (2 * driftMs + 60000) / 120000
  }

  datatype Reason = Initial | EtaChanged | ItemsChanged

  /** The drift a timing event hands to the alert, if any. */
  function DriftOf(kitchenStart: Instant, previous: Option<Instant>, reason: Reason): Option<int> {
    if reason != EtaChanged || previous == None then None else Some(kitchenStart - previous.value)
  }

  /** The minutes a drift alert carries, if one is attempted. */
  function AlertMinutes(driftMs: int, threshold: real): Option<int> {
    if IsSignificant(driftMs, threshold) then Some(RoundToMinutes(driftMs)) else None
  }

  // ---- Rounding ----

  /** Within half a minute of the truth; exactly half a minute only on the low side. */
  lemma RoundedWithinHalfAMinute(driftMs: int)
    ensures -30000 <= driftMs - RoundToMinutes(driftMs) * 60000 < 30000
  {
    var m := RoundToMinutes(driftMs);
    assert 120000 * m <= 2 * driftMs + 60000 < 120000 * m + 120000;
  }

  lemma RoundingIsUnique(driftMs: int, m: int)
    requires -30000 <= driftMs - m * 60000 < 30000
    ensures m == RoundToMinutes(driftMs)
  {
    RoundedWithinHalfAMinute(driftMs);
  }

  /** Earlier and later drifts of one size are reported alike, except on an exact half
      minute, where the earlier one is reported a minute smaller. */
  lemma RoundingAsymmetry(driftMs: int)
    ensures RoundToMinutes(-driftMs)
         == if driftMs % 60000 == 30000 then -RoundToMinutes(driftMs) + 1 else -RoundToMinutes(driftMs)
  {
    var m := RoundToMinutes(driftMs);
    RoundedWithinHalfAMinute(driftMs);
    if driftMs % 60000 == 30000 {
      assert driftMs - m * 60000 == -30000 by {
        var q := driftMs / 60000;
        assert driftMs == 60000 * q + 30000;
      }
      RoundingIsUnique(-driftMs, -m + 1);
    } else {
      assert driftMs - m * 60000 != -30000;
      RoundingIsUnique(-driftMs, -m);
    }
  }

  /** An alert is attempted exactly when the drift, early or late, reaches the threshold. */
  lemma AttemptedIff(driftMs: int, threshold: real)
    ensures AlertMinutes(driftMs, threshold).Some? <==>
              driftMs as real >= threshold * 60000.0 || -driftMs as real >= threshold * 60000.0
    ensures AlertMinutes(driftMs, threshold).Some? ==>
              -30000 <= driftMs - AlertMinutes(driftMs, threshold).value * 60000 < 30000
  {
    RoundedWithinHalfAMinute(driftMs);
  }

  function Size(n: int): nat {
    if n < 0 then -n else n
  }

  function Ceil(x: real): int {
    -((-x).Floor)
  }

  /** Whatever the drift, an alert that is attempted reports at least the threshold. */
  ghost predicate ReportsAtLeast(threshold: real) {
    forall driftMs :: AlertMinutes(driftMs, threshold).Some? ==>
      Size(AlertMinutes(driftMs, threshold).value) as real >= threshold
  }

  /** Rounding reaches m minutes: from m and a half below, exclusive for early drifts. */
  lemma RoundsToAtLeastIff(driftMs: int, m: nat)
    requires m > 0
    ensures Size(RoundToMinutes(driftMs)) >= m
       <==> driftMs >= m * 60000 - 30000 || driftMs < -(m * 60000 - 30000)
  {
    RoundedWithinHalfAMinute(driftMs);
  }

  lemma CeilBounds(x: real)
    ensures Ceil(x) as real - 1.0 < x <= Ceil(x) as real
  {
    var n := (-x).Floor;
    assert n as real <= -x < n as real + 1.0;
  }

  /** It does so if and only if the threshold is whole or its fraction is above one half. */
  lemma ReportsAtLeastIff(threshold: real)
    requires threshold > 0.0
    ensures ReportsAtLeast(threshold) <==> threshold > Ceil(threshold) as real - 0.5
  {
    var c := Ceil(threshold);
    CeilBounds(threshold);
    if threshold > c as real - 0.5 {
      forall driftMs | AlertMinutes(driftMs, threshold).Some?
        ensures Size(AlertMinutes(driftMs, threshold).value) as real >= threshold
      {
        assert Size(driftMs) as real > (c * 60000 - 30000) as real;
        RoundsToAtLeastIff(driftMs, c);
      }
    } else {
      var worst := -(c * 60000 - 30000);
      assert Size(worst) as real >= threshold * MS_PER_MINUTE;
      RoundingIsUnique(worst, -c + 1);
      assert AlertMinutes(worst, threshold) == Some(-c + 1);
    }
  }

  /** With a threshold of n whole minutes an alert is attempted exactly when the drift
      reaches n minutes, and then it never reports fewer than n. */
  lemma AlertReportsTheThreshold(driftMs: int, n: int)
    requires n > 0
    ensures AlertMinutes(driftMs, n as real).Some? <==> (driftMs >= n * 60000 || driftMs <= -n * 60000)
    ensures
      var alert := AlertMinutes(driftMs, n as real);
      alert.Some? ==> Size(alert.value) >= n && -30000 <= driftMs - alert.value * 60000 < 30000
  {
    assert n as real * MS_PER_MINUTE == (n * 60000) as real;
    RoundedWithinHalfAMinute(driftMs);
    CeilBounds(n as real);
    ReportsAtLeastIff(n as real);
  }

  /** A threshold that fails: 90 s early clears a minute and a half and is reported as one minute. */
  lemma OneAndAHalfMinutesUnderreports()
    ensures AlertMinutes(-90000, 1.5) == Some(-1) && !ReportsAtLeast(1.5)
  {
    assert AlertMinutes(-90000, 1.5).Some?;
  }
}
