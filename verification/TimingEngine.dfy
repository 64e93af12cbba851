/** apps/api/src/timing/timing-engine.ts: the two kitchen targets of an order.

    Minutes are JavaScript numbers (`real` here: no double rounding is modelled);
    instants are whole milliseconds, because `new Date(x)` drops the fraction of
    `x` toward zero. */
module TimingEngine {
  import opened Domain

  datatype Buffers = Buffers(avgPrep: real, expo: real)

  datatype Targets = Targets(kitchenStart: Instant, foodOut: Instant)

  const MS_PER_MINUTE := 60000.0

  /** `TimeClip`: the fraction of a millisecond is dropped toward zero. */
  function Truncate(x: real): int {
    if x >= 0.0 then x.Floor else -((-x).Floor)
  }

  function AddMinutes(date: Instant, minutes: real): Instant {
    Truncate(date as real + minutes * MS_PER_MINUTE)
  }

  predicate ValidPreps(preps: seq<real>) {
    |preps| > 0 && forall i :: 0 <= i < |preps| ==> preps[i] > 0.0
  }

  /** `Math.max(...preps)`. */
  function Longest(preps: seq<real>): (m: real)
    requires |preps| > 0
    ensures m in preps
    ensures forall i :: 0 <= i < |preps| ==> preps[i] <= m
  {
    if |preps| == 1 then preps[0]
    else
      var rest := Longest(preps[1..]);
      if preps[0] >= rest then preps[0] else rest
  }

  /** `None` stands for the InvalidTimingInputError the source throws. */
  function ComputeTimingTargets(eta: Instant, preps: seq<real>, b: Buffers): Option<Targets> {
    if !ValidPreps(preps) then None
    else
      var longest := Longest(preps);
      var kitchenStart := AddMinutes(eta, -(longest + b.avgPrep));
      var foodOut := AddMinutes(kitchenStart, longest + b.expo);
      Some(Targets(kitchenStart, foodOut))
  }

  // ---- What the targets mean ----

  /** Starting at `t` leaves every dish its prep time plus the buffer before `eta`. */
  predicate MeetsEveryDish(t: Instant, eta: Instant, preps: seq<real>, b: Buffers) {
    forall i :: 0 <= i < |preps| ==> t as real + (preps[i] + b.avgPrep) * MS_PER_MINUTE <= eta as real
  }

  ghost predicate IsLatestStart(t: Instant, eta: Instant, preps: seq<real>, b: Buffers) {
    && MeetsEveryDish(t, eta, preps, b)
    && forall u: Instant :: MeetsEveryDish(u, eta, preps, b) ==> u <= t
  }

  /** The number of minutes is a whole number of milliseconds. */
  predicate WholeMs(minutes: real) {
    (minutes * MS_PER_MINUTE).Floor as real == minutes * MS_PER_MINUTE
  }

  lemma TruncateBounds(x: real)
    ensures x >= 0.0 ==> Truncate(x) as real <= x < Truncate(x) as real + 1.0
    ensures x <= 0.0 ==> Truncate(x) as real - 1.0 < x <= Truncate(x) as real
    ensures x.Floor as real == x ==> Truncate(x) as real == x
  {
    if x < 0.0 && x.Floor as real == x {
      assert (-x).Floor == -x.Floor;
    }
  }

  lemma TruncateExact(n: int)
    ensures Truncate(n as real) == n
  {
    assert (n as real).Floor == n;
    if n < 0 {
      assert -(n as real) == (-n) as real;
    }
  }

  lemma WholeMsAdds(a: real, b: real)
    requires WholeMs(a) && WholeMs(b)
    ensures WholeMs(a + b) && WholeMs(-(a + b))
  {
    var x, y := (a * MS_PER_MINUTE).Floor, (b * MS_PER_MINUTE).Floor;
    assert (a + b) * MS_PER_MINUTE == a * MS_PER_MINUTE + b * MS_PER_MINUTE == (x + y) as real;
    assert -(a + b) * MS_PER_MINUTE == (-x - y) as real;
    FloorOfWhole((a + b) * MS_PER_MINUTE, x + y);
    FloorOfWhole(-(a + b) * MS_PER_MINUTE, -x - y);
  }

  lemma FloorOfWhole(x: real, n: int)
    requires x == n as real
    ensures x.Floor == n
  {
  }

  lemma AddMinutesExact(date: Instant, minutes: real)
    requires WholeMs(minutes)
    ensures AddMinutes(date, minutes) as real == date as real + minutes * MS_PER_MINUTE
  {
    var x := (minutes * MS_PER_MINUTE).Floor;
    assert date as real + minutes * MS_PER_MINUTE == (date + x) as real;
    TruncateExact(date + x);
  }

  /** Only the slowest dish matters. */
  lemma SlowestDishDecides(t: Instant, eta: Instant, preps: seq<real>, b: Buffers)
    requires |preps| > 0
    ensures MeetsEveryDish(t, eta, preps, b)
       <==> t as real <= eta as real - (Longest(preps) + b.avgPrep) * MS_PER_MINUTE
  {
    var m := Longest(preps);
    var k :| 0 <= k < |preps| && preps[k] == m;
    if t as real <= eta as real - (m + b.avgPrep) * MS_PER_MINUTE {
      forall i | 0 <= i < |preps|
        ensures t as real + (preps[i] + b.avgPrep) * MS_PER_MINUTE <= eta as real
      {
        assert (preps[i] + b.avgPrep) * MS_PER_MINUTE <= (m + b.avgPrep) * MS_PER_MINUTE;
      }
    }
  }

  /** The kitchen start is the latest instant that serves every dish, exactly when
      truncation did not push it up: the exact value is a whole millisecond, or it
      does not lie before the epoch. */
  lemma KitchenStartIsLatestIff(eta: Instant, preps: seq<real>, b: Buffers)
    requires ValidPreps(preps)
    ensures
      var exact := StartSum(eta, preps, b);
      IsLatestStart(ComputeTimingTargets(eta, preps, b).value.kitchenStart, eta, preps, b)
      <==> (exact >= 0.0 || exact.Floor as real == exact)
  {
    var exact := StartSum(eta, preps, b);
    TargetsTruncateTheSums(eta, preps, b);
    TruncateBounds(exact);
    forall u: Instant ensures MeetsEveryDish(u, eta, preps, b) <==> u as real <= exact {
      SlowestDishDecides(u, eta, preps, b);
    }
  }

  /** Where it does not hold: before the epoch a fractional start is rounded up, and the
      ten-minute dish of this order is started six tenths of a millisecond too late. */
  lemma BeforeTheEpochStartsTooLate()
    ensures ComputeTimingTargets(0, [10.0], Buffers(0.00001, 0.0)) == Some(Targets(-600000, 0))
    ensures !MeetsEveryDish(-600000, 0, [10.0], Buffers(0.00001, 0.0))
  {
    assert Longest([10.0]) == 10.0;
    TruncateBounds(-600000.6);
    assert AddMinutes(0, -10.00001) == -600000 && AddMinutes(-600000, 10.0) == 0;
    assert [10.0][0] == 10.0;
  }

  /** The order in which dishes were added makes no difference. */
  lemma PermutationInvariant(eta: Instant, p: seq<real>, q: seq<real>, b: Buffers)
    requires multiset(p) == multiset(q)
    ensures ComputeTimingTargets(eta, p, b) == ComputeTimingTargets(eta, q, b)
  {
    assert forall x :: x in p <==> x in multiset(p);
    assert forall x :: x in q <==> x in multiset(q);
    assert |p| == |multiset(p)| && |q| == |multiset(q)|;
    assert ValidPreps(p) <==> ValidPreps(q) by {
      forall i | 0 <= i < |p| ensures p[i] in q {}
      forall i | 0 <= i < |q| ensures q[i] in p {}
    }
    if ValidPreps(p) {
      assert Longest(p) in q && Longest(q) in p;
    }
  }

  lemma TruncateMonotone(x: real, y: real)
    requires x <= y
    ensures Truncate(x) <= Truncate(y)
  {
    TruncateBounds(x);
    TruncateBounds(y);
  }

  /** Adding dishes can only pull the kitchen start earlier. */
  lemma MoreDishesStartEarlier(eta: Instant, p: seq<real>, extra: seq<real>, b: Buffers)
    requires ValidPreps(p) && ValidPreps(p + extra)
    ensures ComputeTimingTargets(eta, p + extra, b).value.kitchenStart
         <= ComputeTimingTargets(eta, p, b).value.kitchenStart
  {
    assert Longest(p) in p + extra;
    assert Longest(p) <= Longest(p + extra);
    TruncateMonotone(eta as real + -(Longest(p + extra) + b.avgPrep) * MS_PER_MINUTE,
                     eta as real + -(Longest(p) + b.avgPrep) * MS_PER_MINUTE);
  }

  predicate WholeMsOrder(preps: seq<real>, b: Buffers) {
    (forall i :: 0 <= i < |preps| ==> WholeMs(preps[i])) && WholeMs(b.avgPrep) && WholeMs(b.expo)
  }

  /** The two sums the engine truncates. */
  function StartSum(eta: Instant, preps: seq<real>, b: Buffers): real
    requires ValidPreps(preps)
  {
    eta as real - (Longest(preps) + b.avgPrep) * MS_PER_MINUTE
  }

  function OutSum(eta: Instant, preps: seq<real>, b: Buffers): real
    requires ValidPreps(preps)
  {
    Truncate(StartSum(eta, preps, b)) as real + (Longest(preps) + b.expo) * MS_PER_MINUTE
  }

  lemma TargetsTruncateTheSums(eta: Instant, preps: seq<real>, b: Buffers)
    requires ValidPreps(preps)
    ensures ComputeTimingTargets(eta, preps, b)
        == Some(Targets(Truncate(StartSum(eta, preps, b)), Truncate(OutSum(eta, preps, b))))
  {
    assert -(Longest(preps) + b.avgPrep) * MS_PER_MINUTE == -((Longest(preps) + b.avgPrep) * MS_PER_MINUTE);
  }

  /** The ETA less the prep buffer plus the expo buffer, in milliseconds. */
  function PlainFoodOut(eta: Instant, b: Buffers): real {
    eta as real - b.avgPrep * MS_PER_MINUTE + b.expo * MS_PER_MINUTE
  }

  predicate WholeNumber(x: real) {
    x.Floor as real == x
  }

  /** Truncating first at `x` and then at the end gives the exact sum if and only if that is
      a whole number and nothing was lost at `x`, or the loss lies beyond the epoch. */
  predicate LosesNothing(x: real, exact: real) {
    WholeNumber(exact) && (WholeNumber(x) || (x > 0.0 && exact <= 0.0) || (x < 0.0 && exact >= 0.0))
  }

  lemma TruncateTwiceIff(x: real, exact: real)
    ensures Truncate(Truncate(x) as real + (exact - x)) as real == exact <==> LosesNothing(x, exact)
  {
    TruncateBounds(x);
    TruncateBounds(exact);
    if WholeNumber(exact) {
      OffsetVanishesIff(exact.Floor, Truncate(x) as real - x);
    }
  }

  /** An offset of less than one vanishes from a whole number if and only if it is nothing,
      or points away from zero. */
  lemma OffsetVanishesIff(n: int, d: real)
    requires -1.0 < d < 1.0
    ensures Truncate(n as real + d) == n <==> d == 0.0 || (d < 0.0 && n <= 0) || (d > 0.0 && n >= 0)
  {
    TruncateBounds(n as real + d);
  }

  lemma OutSumIsPlain(eta: Instant, preps: seq<real>, b: Buffers)
    requires ValidPreps(preps)
    ensures var x := StartSum(eta, preps, b); OutSum(eta, preps, b) == Truncate(x) as real + (PlainFoodOut(eta, b) - x)
  {
    var m := Longest(preps);
    assert (m + b.avgPrep) * MS_PER_MINUTE == m * MS_PER_MINUTE + b.avgPrep * MS_PER_MINUTE;
    assert (m + b.expo) * MS_PER_MINUTE == m * MS_PER_MINUTE + b.expo * MS_PER_MINUTE;
  }

  /** Food-out does not depend on what was ordered: it is the ETA less the prep buffer plus
      the expo buffer, within two milliseconds always, and exactly if and only if neither
      truncation loses anything that stays lost. */
  lemma FoodOutIgnoresTheOrderIff(eta: Instant, preps: seq<real>, b: Buffers)
    requires ValidPreps(preps)
    ensures
      var foodOut, exact := ComputeTimingTargets(eta, preps, b).value.foodOut, PlainFoodOut(eta, b);
      && exact - 2.0 < foodOut as real < exact + 2.0
      && (foodOut as real == exact <==> LosesNothing(StartSum(eta, preps, b), exact))
  {
    TargetsTruncateTheSums(eta, preps, b);
    OutSumIsPlain(eta, preps, b);
    TruncateBounds(StartSum(eta, preps, b));
    TruncateBounds(OutSum(eta, preps, b));
    TruncateTwiceIff(StartSum(eta, preps, b), PlainFoodOut(eta, b));
  }

  /** In whole milliseconds it is exact for every order. */
  lemma FoodOutIgnoresTheOrder(eta: Instant, preps: seq<real>, b: Buffers)
    requires ValidPreps(preps) && WholeMsOrder(preps, b)
    ensures ComputeTimingTargets(eta, preps, b).value.foodOut as real == PlainFoodOut(eta, b)
  {
    var lead := Longest(preps) + b.avgPrep;
    WholeMsAdds(Longest(preps), b.avgPrep);
    FloorOfWhole(StartSum(eta, preps, b), eta - (lead * MS_PER_MINUTE).Floor);
    FloorOfWhole(PlainFoodOut(eta, b), eta - (b.avgPrep * MS_PER_MINUTE).Floor + (b.expo * MS_PER_MINUTE).Floor);
    FoodOutIgnoresTheOrderIff(eta, preps, b);
  }

  /** An order that fails: both buffers a fraction over nothing, and the food is out a
      millisecond before the guests. */
  lemma FoodOutLosesAMillisecond()
    ensures ComputeTimingTargets(3600000, [10.0], Buffers(0.00001, 0.00001)).value.foodOut == 3599999
    ensures PlainFoodOut(3600000, Buffers(0.00001, 0.00001)) == 3600000.0
  {
    var preps, b := [10.0], Buffers(0.00001, 0.00001);
    assert preps[0] == 10.0 && Longest(preps) == 10.0;
    TargetsTruncateTheSums(3600000, preps, b);
    TruncateBounds(2999999.4);
    assert StartSum(3600000, preps, b) == 2999999.4 && Truncate(2999999.4) == 2999999;
    TruncateBounds(3599999.6);
    assert OutSum(3600000, preps, b) == 3599999.6;
  }

  /** A whole millisecond, or a shift that stays on one side of the epoch. */
  predicate ShiftsExactly(x: real, d: int) {
    || WholeNumber(x)
    || (x >= 0.0 && x + d as real >= 0.0)
    || (x <= 0.0 && x + d as real <= 0.0)
  }

  lemma FloorShifts(x: real, d: int)
    ensures (x + d as real).Floor == x.Floor + d
  {
    var n := x.Floor;
    assert (n + d) as real <= x + d as real < (n + d + 1) as real;
  }

  lemma TruncateShiftsIff(x: real, d: int)
    ensures Truncate(x + d as real) == Truncate(x) + d <==> ShiftsExactly(x, d)
  {
    FloorShifts(x, d);
    FloorShifts(-x, -d);
    assert -(x + d as real) == -x + (-d) as real;
    if x.Floor as real == x {
      TruncateExact(x.Floor);
      TruncateExact(x.Floor + d);
    } else if !ShiftsExactly(x, d) {
      assert (-x).Floor == -x.Floor - 1 by {
        assert (-x.Floor - 1) as real <= -x < (-x.Floor) as real;
      }
    }
  }

  /** Truncation hides a shift only of one millisecond, from just before the epoch to just after it. */
  predicate HidesShift(x: real, d: int) {
    d == 0 || (d == 1 && -1.0 < x < 0.0) || (d == -1 && 0.0 < x < 1.0)
  }

  lemma TruncateSameIff(x: real, d: int)
    ensures Truncate(x + d as real) == Truncate(x) <==> HidesShift(x, d)
  {
    TruncateBounds(x);
    TruncateBounds(x + d as real);
    TruncateShiftsIff(x, d);
  }

  /** Two ETAs give one order the same targets if and only if truncation hides their difference. */
  lemma SameTargetsIff(eta: Instant, d: int, preps: seq<real>, b: Buffers)
    requires ValidPreps(preps)
    ensures ComputeTimingTargets(eta + d, preps, b) == ComputeTimingTargets(eta, preps, b)
       <==> HidesShift(StartSum(eta, preps, b), d)
  {
    TargetsTruncateTheSums(eta, preps, b);
    TargetsTruncateTheSums(eta + d, preps, b);
    assert StartSum(eta + d, preps, b) == StartSum(eta, preps, b) + d as real;
    TruncateSameIff(StartSum(eta, preps, b), d);
  }

  /** Moving the ETA by d moves both targets by exactly d if and only if each of the two
      sums is a whole millisecond or stays on its side of the epoch. */
  lemma ShiftEtaIff(eta: Instant, d: int, preps: seq<real>, b: Buffers)
    requires ValidPreps(preps)
    ensures
      var before, after := ComputeTimingTargets(eta, preps, b).value, ComputeTimingTargets(eta + d, preps, b).value;
      after == Targets(before.kitchenStart + d, before.foodOut + d)
      <==> ShiftsExactly(StartSum(eta, preps, b), d) && ShiftsExactly(OutSum(eta, preps, b), d)
  {
    TargetsTruncateTheSums(eta, preps, b);
    TargetsTruncateTheSums(eta + d, preps, b);
    assert StartSum(eta + d, preps, b) == StartSum(eta, preps, b) + d as real;
    TruncateShiftsIff(StartSum(eta, preps, b), d);
    if ShiftsExactly(StartSum(eta, preps, b), d) {
      assert OutSum(eta + d, preps, b) == OutSum(eta, preps, b) + d as real;
      TruncateShiftsIff(OutSum(eta, preps, b), d);
    }
  }

  /** An input that fails: twenty minutes later, across the epoch, and the kitchen starts a
      millisecond less than twenty minutes later. */
  lemma ShiftAcrossTheEpochLosesAMillisecond()
    ensures ComputeTimingTargets(0, [10.0], Buffers(0.00001, 0.0)).value.kitchenStart == -600000
    ensures ComputeTimingTargets(1200000, [10.0], Buffers(0.00001, 0.0)).value.kitchenStart == -600000 + 1200000 - 1
  {
    var preps, b := [10.0], Buffers(0.00001, 0.0);
    assert preps[0] == 10.0 && Longest(preps) == 10.0;
    TargetsTruncateTheSums(0, preps, b);
    TargetsTruncateTheSums(1200000, preps, b);
    assert StartSum(0, preps, b) == -600000.6 && StartSum(1200000, preps, b) == 599999.4;
    TruncateBounds(-600000.6);
    TruncateBounds(599999.4);
  }

  /** Whole milliseconds always shift. */
  lemma ShiftEta(eta: Instant, d: int, preps: seq<real>, b: Buffers)
    requires ValidPreps(preps) && WholeMsOrder(preps, b)
    ensures
      var before, after := ComputeTimingTargets(eta, preps, b).value, ComputeTimingTargets(eta + d, preps, b).value;
      after == Targets(before.kitchenStart + d, before.foodOut + d)
  {
    var longest := Longest(preps);
    var lead, tail := ((longest + b.avgPrep) * MS_PER_MINUTE).Floor, ((longest + b.expo) * MS_PER_MINUTE).Floor;
    WholeMsAdds(longest, b.avgPrep);
    WholeMsAdds(longest, b.expo);
    assert StartSum(eta, preps, b) == (eta - lead) as real;
    assert OutSum(eta, preps, b) == (Truncate(StartSum(eta, preps, b)) + tail) as real;
    FloorOfWhole(StartSum(eta, preps, b), eta - lead);
    FloorOfWhole(OutSum(eta, preps, b), Truncate(StartSum(eta, preps, b)) + tail);
    ShiftEtaIff(eta, d, preps, b);
  }

  /** After the epoch every order shifts. */
  lemma ShiftEtaAfterTheEpoch(eta: Instant, d: nat, preps: seq<real>, b: Buffers)
    requires ValidPreps(preps) && StartSum(eta, preps, b) >= 0.0 && b.expo >= 0.0
    ensures
      var before, after := ComputeTimingTargets(eta, preps, b).value, ComputeTimingTargets(eta + d, preps, b).value;
      after == Targets(before.kitchenStart + d, before.foodOut + d)
  {
    TruncateBounds(StartSum(eta, preps, b));
    TruncateMonotone(0.0, StartSum(eta, preps, b));
    assert Truncate(0.0) == 0;
    assert Longest(preps) > 0.0;
    assert OutSum(eta, preps, b) >= 0.0;
    ShiftEtaIff(eta, d, preps, b);
  }
}
