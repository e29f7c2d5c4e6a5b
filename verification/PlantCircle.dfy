/**
 The other half of well-foundedness: wherever the plant is drawn in a circle, there is a run whose
 one sweep folds every machine of the circle under the next, with nothing left in view.
 */
module PlantCircle {
  import opened Wrappers
  import opened CoolingTaxonomy
  import opened CoolingGraphs
  import opened RootChoice
  import opened AlarmTable
  import opened CoolingSweeps
  import opened Attribution
  import opened Chains

  /** What a machine reports, and how severely. */
  datatype Kind = Kind(alarmType: string, severity: string)

  /** A cooling condition that is no power trip: what a stopped machine reports. */
  ghost predicate StopKind(kind: Kind) {
    IsCoolingCondition(kind.alarmType, None) && !PowerTrip(kind.alarmType, "") && IsSeverity(kind.severity)
  }

  lemma PlantUnitStopped()
    ensures StopKind(Kind("plant_unit_stopped", "MAJOR"))
  {
  }

  /** A machine that has just reported itself stopped. The alarm takes the machine's number. */
  function Stopped(kind: Kind, d: DeviceId): Alarm {
    Alarm(d, kind.alarmType, "", None, None, kind.severity, 0, false, None, false, false, None, None)
  }

  function StoppedRecord(kind: Kind, d: DeviceId): Record {
    RecordOf(d, Stopped(kind, d), false)
  }

  function AllStopped(kind: Kind, ds: set<DeviceId>): Rows {
    map d | d in ds :: Stopped(kind, d)
  }

  /** Every machine of the set is plant and has another of the set over it. */
  ghost predicate EachFed(g: Topology, ds: set<DeviceId>) {
    forall d {:trigger Fed(g, ds, d)} :: d in ds ==> Fed(g, ds, d)
  }

  ghost predicate Fed(g: Topology, ds: set<DeviceId>, d: DeviceId) {
    TierOf(g, d) == Some(Plant) && exists b :: b in ds && PlantOver(g, d, b)
  }

  // ------------------------------------------------------------- the one sweep

  ghost predicate RecordsOf(kind: Kind, ds: set<DeviceId>, s: seq<Record>) {
    && DistinctIds(s)
    && (forall r :: r in s ==> r.id in ds && r == StoppedRecord(kind, r.id))
    && (forall d :: d in ds ==> StoppedRecord(kind, d) in s)
  }

  lemma {:induction false} SomeListing(kind: Kind, ds: set<DeviceId>) returns (s: seq<Record>)
    ensures RecordsOf(kind, ds, s)
  {
    if ds == {} {
      s := [];
    } else {
      var d := Member(ds);
      var rest := SomeListing(kind, ds - {d});
      s := rest + [StoppedRecord(kind, d)];
      assert forall r :: r in s <==> r in rest || r == StoppedRecord(kind, d);
    }
  }

  function CirclePlan(g: Topology, rooms: Rooms, kind: Kind, ds: set<DeviceId>, s: seq<Record>): Plan {
    Plan(g, rooms, 0, AllStopped(kind, ds), OldestFirst(s), s, {}, map[], [])
  }

  lemma CirclePlanIsFair(g: Topology, rooms: Rooms, kind: Kind, ds: set<DeviceId>, s: seq<Record>)
    requires WellDrawn(g) && RecordsOf(kind, ds, s)
    ensures FairPlan(CirclePlan(g, rooms, kind, ds, s))
  {
    hide WellDrawn, OldestFirst;
    OldestFirstIsOrdered(s);
    var p := CirclePlan(g, rooms, kind, ds, s);
    assert p.fires == FireRooms(p.rows, rooms);
  }

  /** A candidate of the circle explains the machine it feeds. */
  lemma NextExplains(g: Topology, kind: Kind, d: DeviceId, b: DeviceId)
    requires WellDrawn(g) && PlantOver(g, d, b) && StopKind(kind)
    ensures TakesPart(g, StoppedRecord(kind, d))
    ensures Explains(g, Ancestry(g, d), {}, StoppedRecord(kind, d), StoppedRecord(kind, b))
  {
    AncestorsStandAbove(g, d, b);
  }

  lemma CircleChooses(g: Topology, kind: Kind, ds: set<DeviceId>, s: seq<Record>, d: DeviceId)
    requires WellDrawn(g) && RecordsOf(kind, ds, s) && StopKind(kind) && d in ds && Fed(g, ds, d)
    ensures TakesPart(g, StoppedRecord(kind, d)) && Choice(g, {}, StoppedRecord(kind, d), s).Some?
  {
    var b :| b in ds && PlantOver(g, d, b);
    NextExplains(g, kind, d, b);
    BestIsLeast(g, Ancestry(g, d), {}, StoppedRecord(kind, d), s);
  }

  /** So every machine of the circle is folded under another of them, whoever speaks. */
  lemma CircleJudges(g: Topology, kind: Kind, ds: set<DeviceId>, s: seq<Record>, d: DeviceId,
      reps: map<RepKey, AlarmId>)
    requires WellDrawn(g) && RecordsOf(kind, ds, s) && StopKind(kind) && d in ds && Fed(g, ds, d)
    ensures TakesPart(g, StoppedRecord(kind, d))
    ensures var v := Verdict(g, {}, StoppedRecord(kind, d), s, reps);
            v.Some? && v.value.suppress && !v.value.representative && v.value.record.id in ds
  {
    CircleChooses(g, kind, ds, s, d);
    FoldedOrSpeaking(g, {}, StoppedRecord(kind, d), s, reps);
  }

  /** Open, folded, and tied to another row of the set. */
  ghost predicate FoldedInside(ds: set<DeviceId>, a: Alarm) {
    !a.cleared && a.isSymptom && a.l5.Some? && a.l5.value.root in ds
  }

  /** The loop has folded the alarm in place `i`. */
  ghost predicate FoldedAt(ds: set<DeviceId>, s: seq<Record>, rows: Rows, i: int) {
    0 <= i < |s| && s[i].id in ds && s[i].id in rows && FoldedInside(ds, rows[s[i].id])
  }

  ghost predicate FoldsFirst(ds: set<DeviceId>, s: seq<Record>, n: nat, rows: Rows) {
    rows.Keys == ds && (forall d {:trigger rows[d]} :: d in ds ==> !rows[d].cleared) &&
    forall i {:trigger FoldedAt(ds, s, rows, i)} :: 0 <= i < n ==> FoldedAt(ds, s, rows, i)
  }

  lemma FoldsOneMore(p: Plan, ds: set<DeviceId>, s: seq<Record>, n: nat, t: Tally, v: Option<Root>, rows': Rows)
    requires n < |s| && FoldsFirst(ds, s, n, t.rows) && s[n].id in ds
    requires v.Some? && v.value.suppress && !v.value.representative && v.value.record.id in ds
    requires rows' == AdoptTurn(p, t, s[n], v).rows
    ensures FoldsFirst(ds, s, n + 1, rows')
  {
    forall i | 0 <= i < n + 1 ensures FoldedAt(ds, s, rows', i) {
      if i < n { var earlier := FoldedAt(ds, s, t.rows, i); assert earlier; }
    }
  }

  /** The sweep of the stopped machines alone: no orphans, no fires, every visible alarm a candidate. */
  ghost predicate CircleScene(p: Plan, kind: Kind, ds: set<DeviceId>) {
    && WellDrawn(p.g) && EachFed(p.g, ds) && RecordsOf(kind, ds, p.candidates) && StopKind(kind)
    && p.now == 0 && p.fires == {} && p.orphans == [] && p.rows == AllStopped(kind, ds)
    && forall i {:trigger p.visible[i]} :: 0 <= i < |p.visible| ==> p.visible[i] in p.candidates
  }

  /** Turn `n` of the loop was decided by a verdict that folds its alarm under a machine of the set. */
  ghost predicate FoldingTurn(p: Plan, ds: set<DeviceId>, n: nat, t: Tally, t': Tally)
    requires n < |p.visible|
  {
    && p.visible[n].id in ds
    && exists v: Option<Root> ::
         t' == AdoptTurn(p, t, p.visible[n], v) &&
         v.Some? && v.value.suppress && !v.value.representative && v.value.record.id in ds
  }

  lemma CircleTurn(p: Plan, kind: Kind, ds: set<DeviceId>, n: nat)
    requires CircleScene(p, kind, ds) && n < |p.visible|
    ensures FoldingTurn(p, ds, n, AdoptPass(p, n), AdoptPass(p, n + 1))
  {
    var a, t := p.visible[n], AdoptPass(p, n);
    assert a == StoppedRecord(kind, a.id) && Fed(p.g, ds, a.id);
    CircleJudges(p.g, kind, ds, p.candidates, a.id, t.reps);
    var v := Judge(p, a, t.reps);
    assert !Skipped(p, a);
    assert AdoptPass(p, n + 1) == AdoptTurn(p, t, a, v);
  }

  lemma CircleBegins(p: Plan, kind: Kind, ds: set<DeviceId>)
    requires p.orphans == [] && p.rows == AllStopped(kind, ds)
    ensures FoldsFirst(ds, p.visible, 0, AdoptPass(p, 0).rows)
  {
  }

  lemma {:induction false} CircleFolds(p: Plan, ds: set<DeviceId>, ts: seq<Tally>, n: nat)
    requires n < |ts| == |p.visible| + 1 && FoldsFirst(ds, p.visible, 0, ts[0].rows)
    requires forall i {:trigger ts[i]} :: 0 <= i < |p.visible| ==> FoldingTurn(p, ds, i, ts[i], ts[i + 1])
    ensures FoldsFirst(ds, p.visible, n, ts[n].rows)
  {
    hide AdoptTurn, FoldsFirst;
    if n > 0 {
      CircleFolds(p, ds, ts, n - 1);
      var t := ts[n - 1];
      var v: Option<Root> :|
        ts[n] == AdoptTurn(p, t, p.visible[n - 1], v) &&
        v.Some? && v.value.suppress && !v.value.representative && v.value.record.id in ds;
      FoldsOneMore(p, ds, p.visible, n - 1, t, v, ts[n].rows);
    }
  }

  lemma CircleFoldsAll(p: Plan, kind: Kind, ds: set<DeviceId>)
    requires CircleScene(p, kind, ds)
    ensures FoldsFirst(ds, p.visible, |p.visible|, AdoptPass(p, |p.visible|).rows)
  {
    hide AdoptPass, FoldsFirst, FoldingTurn;
    var ts := seq(|p.visible| + 1, i requires 0 <= i <= |p.visible| => AdoptPass(p, i));
    CircleBegins(p, kind, ds);
    forall i {:trigger ts[i]} | 0 <= i < |p.visible| ensures FoldingTurn(p, ds, i, ts[i], ts[i + 1]) {
      CircleTurn(p, kind, ds, i);
    }
    CircleFolds(p, ds, ts, |p.visible|);
  }

  /** Every row is open, folded and tied to a row: nothing is in view and no chain ends. */
  ghost predicate NothingInView(rows: Rows) {
    rows != map[] && forall id {:trigger rows[id]} :: id in rows ==> FoldedInside(rows.Keys, rows[id])
  }

  lemma CircleSweep(g: Topology, rooms: Rooms, kind: Kind, ds: set<DeviceId>) returns (p: Plan)
    requires WellDrawn(g) && EachFed(g, ds) && ds != {} && StopKind(kind)
    ensures FairPlan(p) && p.g == g && p.rooms == rooms && p.rows == AllStopped(kind, ds) && NothingInView(Swept(p))
  {
    var s := SomeListing(kind, ds);
    OldestFirstIsOrdered(s);
    CirclePlanIsFair(g, rooms, kind, ds, s);
    p := CirclePlan(g, rooms, kind, ds, s);
    var rows := AdoptPass(p, |p.visible|).rows;
    CircleFoldsAll(p, kind, ds);
    EachIsCovered(kind, ds, s, p.visible);
    AllFoldedStayFolded(ds, p.visible, rows);
  }

  ghost predicate Covered(q: seq<Record>, d: DeviceId) {
    exists i :: 0 <= i < |q| && q[i].id == d
  }

  lemma EachIsCovered(kind: Kind, ds: set<DeviceId>, s: seq<Record>, q: seq<Record>)
    requires RecordsOf(kind, ds, s) && forall x :: x in q <==> x in s
    ensures forall d {:trigger Covered(q, d)} :: d in ds ==> Covered(q, d)
  {
    forall d {:trigger Covered(q, d)} | d in ds ensures Covered(q, d) {
      assert StoppedRecord(kind, d) in q;
      var i :| 0 <= i < |q| && q[i] == StoppedRecord(kind, d);
    }
  }

  lemma AllFoldedStayFolded(ds: set<DeviceId>, q: seq<Record>, rows: Rows)
    requires FoldsFirst(ds, q, |q|, rows) && ds != {}
    requires forall d {:trigger Covered(q, d)} :: d in ds ==> Covered(q, d)
    ensures NothingInView(ReleaseAll(rows))
  {
    var rows' := ReleaseAll(rows);
    forall d {:trigger rows'[d]} | d in ds ensures FoldedInside(ds, rows'[d]) {
      var covered := Covered(q, d);
      assert covered;
      var i :| 0 <= i < |q| && q[i].id == d;
      var folded := FoldedAt(ds, q, rows, i);
      assert folded;
    }
    assert rows'.Keys == ds;
    var d := Member(ds);
    assert d in rows';
  }

  lemma WalkIsFed(g: Topology, w: seq<DeviceId>, ds: set<DeviceId>)
    requires PlantWalk(g, w) && w[0] == w[|w| - 1] && ds == set d | d in w
    ensures EachFed(g, ds) && ds != {}
  {
    assert w[0] in ds;
    forall d | d in ds ensures Fed(g, ds, d) {
      var i :| 0 <= i < |w| && w[i] == d;
      StepIsFed(g, w, ds, if i < |w| - 1 then i else 0);
    }
  }

  lemma StepIsFed(g: Topology, w: seq<DeviceId>, ds: set<DeviceId>, j: nat)
    requires PlantWalk(g, w) && ds == (set d | d in w) && j < |w| - 1
    ensures Fed(g, ds, w[j])
  {
    var a, b := w[j], w[j + 1];
    assert PlantOver(g, a, b) && b in ds;
  }

  lemma StoppingIsAStep(kind: Kind, ds: set<DeviceId>)
    requires StopKind(kind)
    ensures EnvStep(map[], AllStopped(kind, ds)) && Legal(AllStopped(kind, ds))
  {
  }

  /**
   Where the plant is drawn in a circle, two steps reach a table that is not empty and has nothing
   in view: the machines stop, and one sweep folds each under the next.
   */
  lemma CircleHidesItself(g: Topology, rooms: Rooms, w: seq<DeviceId>) returns (trace: seq<Rows>)
    requires WellDrawn(g) && PlantWalk(g, w) && w[0] == w[|w| - 1]
    ensures Run(g, rooms, trace) && |trace| == 3 && Legal(trace[1]) && NothingInView(trace[2])
  {
    var kind := Kind("plant_unit_stopped", "MAJOR");
    PlantUnitStopped();
    trace := CircleRun(g, rooms, w, kind);
  }

  lemma CircleRun(g: Topology, rooms: Rooms, w: seq<DeviceId>, kind: Kind) returns (trace: seq<Rows>)
    requires WellDrawn(g) && PlantWalk(g, w) && w[0] == w[|w| - 1] && StopKind(kind)
    ensures Run(g, rooms, trace) && |trace| == 3 && Legal(trace[1]) && NothingInView(trace[2])
  {
    hide StopKind, EachFed, EnvStep, FairPlan, Swept, WellDrawn, NothingInView, Legal;
    var ds := set d | d in w;
    WalkIsFed(g, w, ds);
    StoppingIsAStep(kind, ds);
    var p := CircleSweep(g, rooms, kind, ds);
    trace := [map[], AllStopped(kind, ds), Swept(p)];
    assert SweepStep(g, rooms, AllStopped(kind, ds), Swept(p));
    assert Next(g, rooms, trace[0], trace[1]) && Next(g, rooms, trace[1], trace[2]);
  }

  // ---------------------------------------------------------------- exactly when

  /** From every alarm some chain of roots comes to an end. */
  ghost predicate ChainsEnd(rows: Rows) {
    forall id :: id in rows ==> exists c :: EndsAtARoot(rows, id, c)
  }

  ghost predicate EndsAtARoot(rows: Rows, id: AlarmId, c: seq<AlarmId>) {
    Chain(rows, c) && c[0] == id && c[|c| - 1] in rows && rows[c[|c| - 1]].l5 == None
  }

  /** In every state of every run on this graph, every chain ends. */
  ghost predicate AlwaysWellFounded(g: Topology, rooms: Rooms) {
    forall trace, n :: Run(g, rooms, trace) && 0 <= n < |trace| ==> ChainsEnd(trace[n])
  }

  lemma NoChainEnds(rows: Rows, id: AlarmId, c: seq<AlarmId>)
    requires NothingInView(rows)
    ensures !EndsAtARoot(rows, id, c)
  {
    var last := if |c| > 0 then c[|c| - 1] else id;
    assert last in rows ==> rows[last].l5.Some?;
  }

  /** Attribution is well-founded over every run if and only if the plant is not drawn in a circle. */
  lemma WellFoundedExactlyWithoutCircles(g: Topology, rooms: Rooms)
    requires WellDrawn(g)
    ensures AlwaysWellFounded(g, rooms) <==> NoPlantCircle(g)
  {
    if NoPlantCircle(g) {
      forall trace, n | Run(g, rooms, trace) && 0 <= n < |trace| ensures ChainsEnd(trace[n]) {
        forall id | id in trace[n] ensures exists c :: EndsAtARoot(trace[n], id, c) {
          var whole := AttributionIsWellFounded(g, rooms, trace, n, id);
          assert EndsAtARoot(trace[n], id, whole);
        }
      }
    } else {
      var w :| PlantWalk(g, w) && w[0] == w[|w| - 1];
      var trace := CircleHidesItself(g, rooms, w);
      var rows := trace[|trace| - 1];
      var id := Member(rows.Keys);
      forall c ensures !EndsAtARoot(rows, id, c) { NoChainEnds(rows, id, c); }
      assert !ChainsEnd(rows);
    }
  }

  /** Two pumps drawn round in a loop are such a plant. */
  lemma ALoopOfTwoPumpsIsACircle(site: SiteId) returns (g: Topology, w: seq<DeviceId>)
    ensures WellDrawn(g) && PlantWalk(g, w) && w[0] == w[|w| - 1]
  {
    var pump := Node(Pump, None, Some(site));
    g := Topology(map[1 := pump, 2 := pump], map[1 := {2}, 2 := {1}], map[1 := {2}, 2 := {1}],
                  map[], map[], map[site := [1, 2]]);
    w := [1, 2, 1];
    assert PlantAhead(g, 1) == {2} && PlantAhead(g, 2) == {1};
    forall d, e | d in {1, 2} && e in {1, 2} && d != e ensures PlantOver(g, d, e) {
      assert (e, Plant) in Over(g, e) && (e, Plant) in AllOver(g, {e});
      assert (e, Plant) in Upstream(g, d);
      assert e in Ancestry(g, d);
      assert (e, Power) !in Upstream(g, d);
    }
  }
}
