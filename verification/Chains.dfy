/**
 Following the marks: chains of roots, why they end, how far blame can drift along them, and
 that an open alarm stays on its chain until it clears.
 */
module Chains {
  import opened Wrappers
  import opened CoolingTaxonomy
  import opened CoolingGraphs
  import opened RootChoice
  import opened AlarmTable
  import opened CoolingSweeps
  import opened Attribution

  predicate Link(rows: Rows, a: AlarmId, b: AlarmId) {
    a in rows && rows[a].l5.Some? && rows[a].l5.value.root == b
  }

  /** Each alarm of `c` is tied to the next. */
  ghost predicate Chain(rows: Rows, c: seq<AlarmId>) {
    |c| > 0 && c[0] in rows && forall i :: 0 <= i < |c| - 1 ==> Link(rows, c[i], c[i + 1])
  }

  /** Machine `b` acts as plant over plant machine `a`: a drawn edge inside the plant. */
  predicate PlantOver(g: Topology, a: DeviceId, b: DeviceId) {
    TierOf(g, a) == Some(Plant) && b in Ancestry(g, a) && Ancestry(g, a)[b] == Plant
  }

  predicate PlantHop(g: Topology, rows: Rows, a: AlarmId, b: AlarmId) {
    a in rows && b in rows && PlantOver(g, rows[a].device, rows[b].device)
  }

  /** How high an alarm stands: floor, unit, plant, and a power trip above all. */
  function Level(g: Topology, a: Alarm): nat {
    if PowerTrip(a.alarmType, a.instance) then 3
    else match TierOf(g, a.device)
      case Some(Unit) => 1
      case Some(Plant) => 2
      case _ => 0
  }

  /** Every link climbs a level, unless it is a hop along a drawn edge inside the plant. */
  lemma LinkClimbs(g: Topology, rows: Rows, a: AlarmId, b: AlarmId)
    requires WellDrawn(g) && Inv(g, rows) && Link(rows, a, b)
    ensures b in rows && Level(g, rows[a]) <= Level(g, rows[b])
    ensures Level(g, rows[a]) < Level(g, rows[b]) || PlantHop(g, rows, a, b)
    ensures InWindow(rows[b].firstSeen, rows[a].firstSeen)
  {
    assert Linked(g, rows, a);
    AncestorsStandAbove(g, rows[a].device, rows[b].device);
    ActsAsItIs(g, rows[a].device, rows[b].device);
  }

  lemma {:induction false} ChainStaysInRows(g: Topology, rows: Rows, c: seq<AlarmId>, i: nat)
    requires WellDrawn(g) && Inv(g, rows) && Chain(rows, c) && i < |c|
    ensures c[i] in rows
  {
    if i > 0 { LinkClimbs(g, rows, c[i - 1], c[i]); }
  }

  lemma {:induction false} ChainClimbs(g: Topology, rows: Rows, c: seq<AlarmId>, i: nat, j: nat)
    requires WellDrawn(g) && Inv(g, rows) && Chain(rows, c) && i <= j < |c|
    ensures c[i] in rows && c[j] in rows && Level(g, rows[c[i]]) <= Level(g, rows[c[j]])
  {
    hide Level, Inv, PlantHop;
    ChainStaysInRows(g, rows, c, i);
    if i < j {
      ChainClimbs(g, rows, c, i, j - 1);
      LinkClimbs(g, rows, c[j - 1], c[j]);
    }
  }

  // --------------------------------------------------------------------- cycles

  /** Whatever is drawn, a cycle of marks lies wholly inside the plant tier, along drawn edges. */
  lemma CyclesLieInThePlant(g: Topology, rows: Rows, c: seq<AlarmId>)
    requires WellDrawn(g) && Inv(g, rows) && Chain(rows, c)
    requires |c| > 1 && c[0] == c[|c| - 1]
    ensures forall i :: 0 <= i < |c| - 1 ==> PlantHop(g, rows, c[i], c[i + 1])
  {
    forall i | 0 <= i < |c| - 1
      ensures PlantHop(g, rows, c[i], c[i + 1])
    {
      ChainClimbs(g, rows, c, 0, i);
      ChainClimbs(g, rows, c, i + 1, |c| - 1);
      LinkClimbs(g, rows, c[i], c[i + 1]);
    }
  }

  /** A hop inside the plant follows an edge the cooling layer draws, between two machines. */
  lemma PlantOverIsDrawn(g: Topology, a: DeviceId, b: DeviceId)
    requires WellDrawn(g) && PlantOver(g, a, b)
    ensures b in PlantAhead(g, a) && a != b && TierOf(g, b) == Some(Plant)
  {
    AncestorsStandAbove(g, a, b);
    ActsAsItIs(g, a, b);
  }

  /** A walk along drawn plant edges, each machine fed by the next. */
  ghost predicate PlantWalk(g: Topology, w: seq<DeviceId>) {
    |w| > 1 && forall i :: 0 <= i < |w| - 1 ==> PlantOver(g, w[i], w[i + 1])
  }

  /** The plant is not drawn in a circle. */
  ghost predicate NoPlantCircle(g: Topology) {
    forall w :: PlantWalk(g, w) ==> w[0] != w[|w| - 1]
  }

  /** A ranking of the machines that falls along every drawn plant-to-plant edge rules the circle out. */
  lemma RankedPlantHasNoCircle(g: Topology, rank: DeviceId -> int)
    requires WellDrawn(g)
    requires forall a, b :: TierOf(g, a) == Some(Plant) && b in PlantAhead(g, a) && a != b ==> rank(b) < rank(a)
    ensures NoPlantCircle(g)
  {
    forall w | PlantWalk(g, w) ensures w[0] != w[|w| - 1] {
      forall i | 0 <= i < |w| - 1 ensures rank(w[i + 1]) < rank(w[i]) { PlantOverIsDrawn(g, w[i], w[i + 1]); }
      RankFalls(rank, w, |w| - 1);
    }
  }

  lemma {:induction false} RankFalls(rank: DeviceId -> int, w: seq<DeviceId>, n: nat)
    requires 0 < n < |w| && forall i :: 0 <= i < |w| - 1 ==> rank(w[i + 1]) < rank(w[i])
    ensures rank(w[n]) < rank(w[0])
  {
    if n > 1 { RankFalls(rank, w, n - 1); }
    assert rank(w[n - 1 + 1]) < rank(w[n - 1]);
  }

  function Devices(rows: Rows, c: seq<AlarmId>): seq<DeviceId>
    requires forall i :: 0 <= i < |c| ==> c[i] in rows
  {
    seq(|c|, i requires 0 <= i < |c| => rows[c[i]].device)
  }

  lemma HopsMakeAWalk(g: Topology, rows: Rows, c: seq<AlarmId>)
    requires |c| > 1 && forall i :: 0 <= i < |c| ==> c[i] in rows
    requires forall i :: 0 <= i < |c| - 1 ==> PlantHop(g, rows, c[i], c[i + 1])
    ensures PlantWalk(g, Devices(rows, c))
  {
    var w := Devices(rows, c);
    forall i | 0 <= i < |w| - 1 ensures PlantOver(g, w[i], w[i + 1]) {
      assert PlantHop(g, rows, c[i], c[i + 1]);
    }
  }

  // ------------------------------------------------------- chains come to an end

  /** No chain returns to where it has been. */
  ghost predicate NoRepeats(rows: Rows) {
    forall c, i, j :: Chain(rows, c) && 0 <= i < j < |c| ==> c[i] != c[j]
  }

  /** Every root is a row of the table. */
  ghost predicate RootsAreRows(rows: Rows) {
    forall a :: a in rows && rows[a].l5.Some? ==> rows[a].l5.value.root in rows
  }

  /** With no circle drawn, no chain of marks returns to where it has been. */
  lemma ChainsDoNotRepeat(g: Topology, rows: Rows)
    requires WellDrawn(g) && Inv(g, rows) && NoPlantCircle(g)
    ensures NoRepeats(rows) && RootsAreRows(rows)
  {
    forall c, i, j | Chain(rows, c) && 0 <= i < j < |c|
      ensures c[i] != c[j]
    {
      if c[i] == c[j] { ARepeatDrawsACircle(g, rows, c, i, j); }
    }
    forall a | a in rows && rows[a].l5.Some? ensures rows[a].l5.value.root in rows { assert Linked(g, rows, a); }
  }

  lemma ARepeatDrawsACircle(g: Topology, rows: Rows, c: seq<AlarmId>, i: nat, j: nat)
    requires WellDrawn(g) && Inv(g, rows) && Chain(rows, c) && i < j < |c| && c[i] == c[j]
    ensures !NoPlantCircle(g)
  {
    hide WellDrawn, Inv, PlantHop, PlantOver;
    var d := c[i..j + 1];
    ChainStaysInRows(g, rows, c, i);
    forall k | 0 <= k < |d| - 1 ensures Link(rows, d[k], d[k + 1]) { assert Link(rows, c[i + k], c[i + k + 1]); }
    CyclesLieInThePlant(g, rows, d);
    forall k | 0 <= k < |d| ensures d[k] in rows { ChainStaysInRows(g, rows, d, k); }
    HopsMakeAWalk(g, rows, d);
    var w := Devices(rows, d);
    assert w[0] == w[|w| - 1];
  }

  lemma {:induction false} DistinctFits(c: seq<AlarmId>, ids: set<AlarmId>)
    requires forall i, j :: 0 <= i < j < |c| ==> c[i] != c[j]
    requires forall i :: 0 <= i < |c| ==> c[i] in ids
    ensures |c| <= |ids|
  {
    if c != [] {
      var last := c[|c| - 1];
      DistinctFits(c[..|c| - 1], ids - {last});
    }
  }

  lemma {:induction false} ChainIsRows(rows: Rows, c: seq<AlarmId>, i: nat)
    requires RootsAreRows(rows) && Chain(rows, c) && i < |c|
    ensures c[i] in rows
  {
    if i > 0 {
      ChainIsRows(rows, c, i - 1);
      assert Link(rows, c[i - 1], c[i - 1 + 1]);
    }
  }

  lemma ChainFits(rows: Rows, c: seq<AlarmId>)
    requires NoRepeats(rows) && RootsAreRows(rows) && Chain(rows, c)
    ensures |c| <= |rows|
  {
    forall i | 0 <= i < |c| ensures c[i] in rows.Keys { ChainIsRows(rows, c, i); }
    DistinctFits(c, rows.Keys);
  }

  /** Such a chain can be followed to its end, and is no longer than the table. */
  lemma {:induction false} FollowToTheEnd(rows: Rows, c: seq<AlarmId>) returns (whole: seq<AlarmId>)
    requires NoRepeats(rows) && RootsAreRows(rows) && Chain(rows, c)
    ensures Chain(rows, whole) && c <= whole && |whole| <= |rows|
    ensures whole[|whole| - 1] in rows && rows[whole[|whole| - 1]].l5 == None
    decreases |rows| - |c|
  {
    var last := c[|c| - 1];
    ChainIsRows(rows, c, |c| - 1);
    ChainFits(rows, c);
    if rows[last].l5.None? {
      whole := c;
    } else {
      var longer := c + [rows[last].l5.value.root];
      forall i | 0 <= i < |longer| - 1 ensures Link(rows, longer[i], longer[i + 1]) {
        if i < |c| - 1 { assert Link(rows, c[i], c[i + 1]); }
      }
      ChainFits(rows, longer);
      whole := FollowToTheEnd(rows, longer);
    }
  }

  /**
   Attribution is well-founded: in every state of every run, following the roots from any alarm
   repeats nothing and ends at an alarm with no root, provided the plant is not drawn in a circle.
   */
  lemma AttributionIsWellFounded(g: Topology, rooms: Rooms, trace: seq<Rows>, n: nat, id: AlarmId)
    returns (whole: seq<AlarmId>)
    requires Run(g, rooms, trace) && NoPlantCircle(g) && n < |trace| && id in trace[n]
    ensures Chain(trace[n], whole) && whole[0] == id && |whole| <= |trace[n]|
    ensures forall i, j :: 0 <= i < j < |whole| ==> whole[i] != whole[j]
    ensures whole[|whole| - 1] in trace[n] && trace[n][whole[|whole| - 1]].l5 == None
  {
    RunKeepsInv(g, rooms, trace, n);
    ChainsDoNotRepeat(g, trace[n]);
    whole := FollowToTheEnd(trace[n], [id]);
  }

  // ----------------------------------------------------------- drift of blame

  function Count(hops: seq<bool>): nat {
    if hops == [] then 0 else Count(hops[..|hops| - 1]) + if hops[|hops| - 1] then 1 else 0
  }

  lemma {:induction false} ClimbAndDrift(levels: seq<nat>, times: seq<Time>, hops: seq<bool>)
    requires |levels| == |times| == |hops| + 1
    requires forall i :: 0 <= i < |hops| ==>
               levels[i] <= levels[i + 1] && (hops[i] || levels[i] < levels[i + 1]) && InWindow(times[i + 1], times[i])
    ensures |hops| <= Count(hops) + levels[|hops|] - levels[0]
    ensures -LAG * |hops| <= times[|hops|] - times[0] <= LEAD * |hops|
  {
    var n := |hops|;
    if n > 0 {
      var hops', levels', times' := hops[..n - 1], levels[..n], times[..n];
      forall i | 0 <= i < n - 1
        ensures levels'[i] <= levels'[i + 1] && (hops'[i] || levels'[i] < levels'[i + 1]) &&
            InWindow(times'[i + 1], times'[i])
      {
        assert levels[i] <= levels[i + 1];
      }
      ClimbAndDrift(levels', times', hops');
      assert levels[n - 1] <= levels[n - 1 + 1];
    }
  }

  /** Which links of a chain are hops inside the plant. */
  ghost function PlantHops(g: Topology, rows: Rows, c: seq<AlarmId>): seq<bool>
    requires |c| > 0
  {
    seq(|c| - 1, i requires 0 <= i < |c| - 1 => PlantHop(g, rows, c[i], c[i + 1]))
  }

  ghost function Levels(g: Topology, rows: Rows, c: seq<AlarmId>): (r: seq<nat>)
    requires forall i :: 0 <= i < |c| ==> c[i] in rows
    ensures forall l :: l in r ==> l <= 3
  {
    seq(|c|, i requires 0 <= i < |c| => Level(g, rows[c[i]]))
  }

  ghost function Onsets(rows: Rows, c: seq<AlarmId>): seq<Time>
    requires forall i :: 0 <= i < |c| ==> c[i] in rows
  {
    seq(|c|, i requires 0 <= i < |c| => rows[c[i]].firstSeen)
  }

  lemma ChainProfile(g: Topology, rows: Rows, c: seq<AlarmId>)
    requires WellDrawn(g) && Inv(g, rows) && Chain(rows, c) && forall i :: 0 <= i < |c| ==> c[i] in rows
    ensures var levels, times, hops := Levels(g, rows, c), Onsets(rows, c), PlantHops(g, rows, c);
            forall i :: 0 <= i < |hops| ==>
              levels[i] <= levels[i + 1] && (hops[i] || levels[i] < levels[i + 1]) && InWindow(times[i + 1], times[i])
  {
    forall i | 0 <= i < |c| - 1
      ensures Level(g, rows[c[i]]) <= Level(g, rows[c[i + 1]])
      ensures PlantHop(g, rows, c[i], c[i + 1]) || Level(g, rows[c[i]]) < Level(g, rows[c[i + 1]])
      ensures InWindow(rows[c[i + 1]].firstSeen, rows[c[i]].firstSeen)
    {
      LinkClimbs(g, rows, c[i], c[i + 1]);
    }
  }

  /** The three measures of a chain side by side. */
  lemma ChainMeasures(g: Topology, rows: Rows, c: seq<AlarmId>)
    requires |c| > 0 && forall i :: 0 <= i < |c| ==> c[i] in rows
    ensures var levels, times, hops := Levels(g, rows, c), Onsets(rows, c), PlantHops(g, rows, c);
            && |levels| == |times| == |hops| + 1 == |c| && levels[|hops|] <= 3
            && times[0] == rows[c[0]].firstSeen && times[|hops|] == rows[c[|c| - 1]].firstSeen
  {
    hide Level, PlantHop;
    var levels := Levels(g, rows, c);
    assert levels[|c| - 1] in levels;
  }

  /**
   A chain with k plant hops has at most three other links, so its end began no more than
   (3 + k) hours before, and no more than 10 * (3 + k) minutes after, the alarm it explains.
   */
  lemma BlameDriftsBoundedly(g: Topology, rows: Rows, c: seq<AlarmId>)
    requires WellDrawn(g) && Inv(g, rows) && Chain(rows, c)
    ensures c[|c| - 1] in rows
    ensures var k, drift := Count(PlantHops(g, rows, c)), rows[c[|c| - 1]].firstSeen - rows[c[0]].firstSeen;
            && |c| - 1 <= 3 + k
            && -LAG * (|c| - 1) <= drift <= LEAD * (|c| - 1)
            && -3_600_000_000 * (3 + k) <= drift <= 600_000_000 * (3 + k)
  {
    hide WellDrawn, Inv, Count, Levels, Onsets, PlantHops, Link;
    forall i | 0 <= i < |c| ensures c[i] in rows { ChainStaysInRows(g, rows, c, i); }
    ChainProfile(g, rows, c);
    ChainMeasures(g, rows, c);
    var levels, times, hops := Levels(g, rows, c), Onsets(rows, c), PlantHops(g, rows, c);
    ClimbAndDrift(levels, times, hops);
    Widen(|hops|, Count(hops) + 3, times[|hops|] - times[0]);
  }

  lemma Widen(n: nat, m: nat, drift: Time)
    requires n <= m && -LAG * n <= drift <= LEAD * n
    ensures -LAG * m <= drift <= LEAD * m
  {
  }

  // ------------------------------------------------------------- persistence

  ghost predicate MarksStand(rows: Rows, rows': Rows) {
    forall id :: id in rows && rows[id].l5.Some? ==> id in rows' && rows'[id].l5.Some?
  }

  lemma {:induction false} OrphanPassKeepsMarks(p: Plan, n: nat)
    requires n <= |p.orphans|
    ensures MarksStand(p.rows, OrphanPass(p, n).rows)
  {
    hide Judge;
    if n > 0 { OrphanPassKeepsMarks(p, n - 1); }
  }

  lemma {:induction false} AdoptPassKeepsMarks(p: Plan, n: nat)
    requires n <= |p.visible|
    ensures MarksStand(p.rows, AdoptPass(p, n).rows)
  {
    hide Judge, OrphanPass;
    if n == 0 { OrphanPassKeepsMarks(p, |p.orphans|); } else { AdoptPassKeepsMarks(p, n - 1); }
  }

  /** After a sweep no cleared alarm carries a mark, and no open alarm has lost one. */
  lemma SweepDropsOnlyClearedMarks(p: Plan)
    requires FairPlan(p)
    ensures SameStates(p.rows, Swept(p))
    ensures forall id :: id in Swept(p) && Swept(p)[id].cleared ==> Swept(p)[id].l5 == None
    ensures forall id :: id in p.rows && p.rows[id].l5.Some? && !p.rows[id].cleared ==> Swept(p)[id].l5.Some?
  {
    FairPlansWorkOnOpen(p);
    ClearedAreUntouched(p, |p.visible|);
    AdoptPassKeepsMarks(p, |p.visible|);
  }

  /** Same rows, each as open or cleared as before. */
  ghost predicate SameStates(rows: Rows, rows': Rows) {
    rows'.Keys == rows.Keys && forall id :: id in rows ==> rows'[id].cleared == rows[id].cleared
  }

  /** One step never drops the mark of an alarm it leaves open, and never reopens one. */
  lemma StepKeepsOpenMarks(g: Topology, rooms: Rooms, rows: Rows, rows': Rows, id: AlarmId)
    requires Next(g, rooms, rows, rows') && id in rows
    ensures id in rows' && (rows[id].cleared ==> rows'[id].cleared)
    ensures rows[id].l5.Some? && !rows'[id].cleared ==> rows'[id].l5.Some?
  {
    if !EnvStep(rows, rows') && !CorrelateStep(g, rooms, rows, rows') {
      var p :| FairPlan(p) && p.g == g && p.rooms == rooms && p.rows == rows && rows' == Swept(p);
      SweepDropsOnlyClearedMarks(p);
    }
  }

  /** Once attributed, an alarm is attributed in every later state until it clears. */
  lemma {:induction false} AttributedUntilCleared(g: Topology, rooms: Rooms, trace: seq<Rows>, i: nat, j: nat,
      id: AlarmId)
    requires Run(g, rooms, trace) && i <= j < |trace|
    requires id in trace[i] && trace[i][id].l5.Some?
    ensures id in trace[j] && (trace[i][id].cleared ==> trace[j][id].cleared)
    ensures !trace[j][id].cleared ==> trace[j][id].l5.Some?
  {
    hide Next, WellDrawn;
    if i < j {
      AttributedUntilCleared(g, rooms, trace, i, j - 1, id);
      StepKeepsOpenMarks(g, rooms, trace[j - 1], trace[j], id);
    }
  }

  /**
   In every state of every run, an alarm folded by its mark is a symptom of exactly that root, and the root
   is there.
   */
  lemma FoldsAreTheMarks(g: Topology, rooms: Rooms, trace: seq<Rows>, n: nat, id: AlarmId)
    requires Run(g, rooms, trace) && n < |trace| && id in trace[n] && trace[n][id].l5.Some?
    ensures trace[n][id].l5.value.root in trace[n]
    ensures trace[n][id].l5.value.suppressed ==>
              trace[n][id].isSymptom && trace[n][id].rootCause == Some(trace[n][id].l5.value.root)
  {
    RunKeepsInv(g, rooms, trace, n);
    assert Linked(g, trace[n], id) && Folded(trace[n][id]);
  }
}
