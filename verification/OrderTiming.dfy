/** What the targets of a visit mean for the lines of its order: which orders get any, and
    that every dish is given its time, written with the rows alone. */
module OrderTiming {
  import opened Domain
  import opened TimingEngine
  import opened Protocol
  import opened TargetHistory

  /** The dish of this line is on the restaurant's own menu. */
  predicate OnMenu(db: Db, r: Id, line: Item) {
    line.menuItem in db.menu && db.menu[line.menuItem].restaurant == r
  }

  predicate HasOrder(db: Db, v: Id) {
    v in db.items && |db.items[v]| > 0
  }

  /** Every line's dish takes some time. */
  predicate EveryDishTimed(db: Db, r: Id, v: Id) {
    forall i :: v in db.items && 0 <= i < |db.items[v]| ==>
      OnMenu(db, r, db.items[v][i]) && db.menu[db.items[v][i].menuItem].prepTimeMinutes > 0
  }

  /** Both buffers are stored, and neither is negative. */
  predicate BuffersStored(db: Db, r: Id) {
    && r in db.restaurants
    && db.restaurants[r].avgPrepBufferMinutes.Some? && db.restaurants[r].avgPrepBufferMinutes.value >= 0.0
    && db.restaurants[r].expoBufferMinutes.Some? && db.restaurants[r].expoBufferMinutes.value >= 0.0
  }

  /** `from`, plus the dish's prep time and `buffer` minutes, in milliseconds. */
  function Reaches(db: Db, line: Item, from: Instant, buffer: real): real
    requires line.menuItem in db.menu
  {
    from as real + (db.menu[line.menuItem].prepTimeMinutes as real + buffer) * 60000.0
  }

  /** Started at `ts.kitchenStart`, every line is ready a prep buffer before the ETA, and some
      line only just; at `ts.foodOut` every line is an expo buffer past ready, and some line
      only just. To the millisecond that truncation can cost; exactly for whole ones. */
  ghost predicate SuitsOrder(db: Db, r: Id, v: Id, eta: Instant, ts: Targets) {
    && HasOrder(db, v) && EveryDishTimed(db, r, v) && BuffersStored(db, r)
    && var lines, prep, expo := db.items[v], db.restaurants[r].avgPrepBufferMinutes.value,
         db.restaurants[r].expoBufferMinutes.value;
       && (forall i :: 0 <= i < |lines| ==> InTime(db, lines[i], eta, ts, prep, expo))
       && (exists i :: 0 <= i < |lines| && JustReady(db, lines[i], eta, ts, prep))
       && (exists i :: 0 <= i < |lines| && JustOut(db, lines[i], ts, expo))
  }

  predicate InTime(db: Db, line: Item, eta: Instant, ts: Targets, prep: real, expo: real)
    requires line.menuItem in db.menu
  {
    var ready, out := Reaches(db, line, ts.kitchenStart, prep), Reaches(db, line, ts.kitchenStart, expo);
    && ready < eta as real + 1.0
    && (ts.kitchenStart > 0 || WholeMs(prep) ==> ready <= eta as real)
    && out < ts.foodOut as real + 1.0
    && (WholeMs(expo) ==> out <= ts.foodOut as real)
  }

  predicate JustReady(db: Db, line: Item, eta: Instant, ts: Targets, prep: real)
    requires line.menuItem in db.menu
  {
    var ready := Reaches(db, line, ts.kitchenStart, prep);
    eta as real - 1.0 < ready && (WholeMs(prep) ==> ready == eta as real)
  }

  predicate JustOut(db: Db, line: Item, ts: Targets, expo: real)
    requires line.menuItem in db.menu
  {
    var out := Reaches(db, line, ts.kitchenStart, expo);
    ts.foodOut as real - 1.0 < out && (WholeMs(expo) ==> out == ts.foodOut as real)
  }

  // ---- The prep times handed to the engine are those of the lines ----

  lemma {:induction false} PrepTimesAre(db: Db, r: Id, items: seq<Item>, i: nat)
    requires i < |items|
    ensures |PrepTimes(db, r, items)| == |items|
    ensures PrepTimes(db, r, items)[i]
         == if OnMenu(db, r, items[i]) then db.menu[items[i].menuItem].prepTimeMinutes as real else 0.0
    decreases |items|
  {
    if |items| > 1 {
      PrepTimesAre(db, r, items[1..], if i > 0 then i - 1 else 0);
    }
  }

  lemma ValidPrepsIff(db: Db, r: Id, v: Id)
    ensures ValidPreps(PrepTimes(db, r, ItemsOf(db, v))) <==> HasOrder(db, v) && EveryDishTimed(db, r, v)
  {
    var items := ItemsOf(db, v);
    forall i | 0 <= i < |items|
      ensures |PrepTimes(db, r, items)| == |items|
      ensures PrepTimes(db, r, items)[i]
           == if OnMenu(db, r, items[i]) then db.menu[items[i].menuItem].prepTimeMinutes as real else 0.0
    {
      PrepTimesAre(db, r, items, i);
    }
    if ValidPreps(PrepTimes(db, r, items)) {
      assert items != [];
    }
  }

  /** An order has targets if and only if it has a line, every line's dish takes some time,
      and both buffers are stored. */
  lemma TargetsExistIff(db: Db, r: Id, v: Id, eta: Instant)
    ensures OrderTargets(db, r, v, eta).Some? <==> HasOrder(db, v) && EveryDishTimed(db, r, v) && BuffersStored(db, r)
  {
    ValidPrepsIff(db, r, v);
  }

  lemma WholeMinutes(n: int)
    ensures WholeMs(n as real)
  {
    FloorOfWhole(n as real * MS_PER_MINUTE, n * 60000);
  }

  /** One line, given the longest prep time of the order. */
  lemma LineSuits(db: Db, line: Item, eta: Instant, ts: Targets, longest: int, prep: real, expo: real)
    requires line.menuItem in db.menu && db.menu[line.menuItem].prepTimeMinutes <= longest
    requires ts.kitchenStart == Truncate(eta as real - (longest as real + prep) * MS_PER_MINUTE)
    requires ts.foodOut == Truncate(ts.kitchenStart as real + (longest as real + expo) * MS_PER_MINUTE)
    ensures InTime(db, line, eta, ts, prep, expo)
    ensures db.menu[line.menuItem].prepTimeMinutes == longest ==>
        JustReady(db, line, eta, ts, prep) && JustOut(db, line, ts, expo)
  {
    var own, most := db.menu[line.menuItem].prepTimeMinutes as real, longest as real;
    assert (own + prep) * 60000.0 <= (most + prep) * 60000.0 && (own + expo) * 60000.0 <= (most + expo) * 60000.0;
    var x, y := eta as real - (most + prep) * MS_PER_MINUTE, ts.kitchenStart as real + (most + expo) * MS_PER_MINUTE;
    TruncateBounds(x);
    TruncateBounds(y);
    WholeMinutes(longest);
    if WholeMs(prep) {
      WholeMsAdds(most, prep);
      FloorOfWhole(x, eta - ((most + prep) * MS_PER_MINUTE).Floor);
    }
    if WholeMs(expo) {
      WholeMsAdds(most, expo);
      FloorOfWhole(y, ts.kitchenStart + ((most + expo) * MS_PER_MINUTE).Floor);
    }
  }

  /** Main result: the targets of an order suit every one of its lines. */
  lemma TargetsSuitTheOrder(db: Db, r: Id, v: Id, eta: Instant)
    requires OrderTargets(db, r, v, eta).Some?
    ensures SuitsOrder(db, r, v, eta, OrderTargets(db, r, v, eta).value)
  {
    var lines, preps := ItemsOf(db, v), PrepTimes(db, r, ItemsOf(db, v));
    var buffers, ts := ValidBuffers(SettingsOf(db, r)).value, OrderTargets(db, r, v, eta).value;
    TargetsExistIff(db, r, v, eta);
    TargetsTruncateTheSums(eta, preps, buffers);
    PrepTimesAre(db, r, lines, 0);
    var k :| 0 <= k < |preps| && preps[k] == Longest(preps);
    PrepTimesAre(db, r, lines, k);
    var longest := db.menu[lines[k].menuItem].prepTimeMinutes;
    forall i | 0 <= i < |lines| ensures InTime(db, lines[i], eta, ts, buffers.avgPrep, buffers.expo) {
      PrepTimesAre(db, r, lines, i);
      LineSuits(db, lines[i], eta, ts, longest, buffers.avgPrep, buffers.expo);
    }
    LineSuits(db, lines[k], eta, ts, longest, buffers.avgPrep, buffers.expo);
  }

  /** What an order's targets are, read off the rows; no second pair of targets suits it in
      whole milliseconds. */
  lemma SuitedTargetsAreUnique(db: Db, r: Id, v: Id, eta: Instant, one: Targets, other: Targets)
    requires SuitsOrder(db, r, v, eta, one) && SuitsOrder(db, r, v, eta, other)
    requires WholeMs(db.restaurants[r].avgPrepBufferMinutes.value) && WholeMs(db.restaurants[r].expoBufferMinutes.value)
    ensures one == other
  {
    var lines, prep, expo := db.items[v], db.restaurants[r].avgPrepBufferMinutes.value,
        db.restaurants[r].expoBufferMinutes.value;
    var i :| 0 <= i < |lines| && JustReady(db, lines[i], eta, one, prep);
    var j :| 0 <= j < |lines| && JustReady(db, lines[j], eta, other, prep);
    assert InTime(db, lines[i], eta, other, prep, expo) && InTime(db, lines[j], eta, one, prep, expo);
    var k :| 0 <= k < |lines| && JustOut(db, lines[k], one, expo);
    var l :| 0 <= l < |lines| && JustOut(db, lines[l], other, expo);
    assert InTime(db, lines[k], eta, other, prep, expo) && InTime(db, lines[l], eta, one, prep, expo);
  }

  /** Over any run: the targets a row holds suit the order as its last writer read it, line
      by line, for the ETA that writer timed for. */
  lemma RowTargetsSuitTheOrderRead(s: System, acts: seq<Action>, v: Id) returns (i: nat, j: nat, eta: Instant)
    requires s.tasks == map[]
    requires v in s.db.visits ==> s.db.visits[v].kitchenStartTarget == None
    requires v in Run(s, acts).db.visits && Run(s, acts).db.visits[v].kitchenStartTarget.Some?
    ensures i < j && LastWriter(s, acts, j, v) && FirstStep(s, acts, i, acts[j].task)
    ensures Retimes(Run(s, acts[..i]).tasks[acts[j].task].request)
    ensures EtaFor(Run(s, acts[..i]).db, Run(s, acts[..i]).tasks[acts[j].task]) == Some(eta)
    ensures
      var row := Run(s, acts).db.visits[v];
      && row.foodOutTarget.Some?
      && SuitsOrder(Run(s, acts[..i]).db, row.restaurant, v, eta,
                    Targets(row.kitchenStartTarget.value, row.foodOutTarget.value))
  {
    var ts;
    i, j, eta, ts := TargetsAreTheLastWriters(s, acts, v);
    RestaurantStays(s, acts, i, v);
    TargetsSuitTheOrder(Run(s, acts[..i]).db, Run(s, acts).db.visits[v].restaurant, v, eta);
  }
}
