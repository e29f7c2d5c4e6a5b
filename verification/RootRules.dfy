/**
 Which alarm a symptom is tied to, said of the alarm rows.

 `MayExplain` asks of a row what the module documentation of cooling_correlation.py asks of a root,
 without the candidate lists, the fire set and the loop. `TheVerdict` says that `pick_root` names
 somebody exactly when such a row is there, and which; `SweepJudges` and `RaiseJudges` carry it to the
 two places it is called from.
 */
module RootRules {
  import opened Wrappers
  import opened CoolingTaxonomy
  import opened CoolingGraphs
  import opened RootChoice
  import opened AlarmTable
  import P = CoolingPaths

  const MINUTE: Time := 60_000_000

  // --------------------------------------------------------------- the rules

  /** The alarm takes cooling away. */
  predicate LosesCooling(alarmType: string, category: Option<string>) {
    && !NotACapacityLoss(alarmType)
    && (category == Some("cooling") || UnitGeneric(alarmType) || HasCoolingPrefix(alarmType))
  }

  predicate ReportsHeat(alarmType: string, metric: Option<string>) {
    ThermalSymptom(alarmType) || (metric.Some? && ThermalMetric(metric.value))
  }

  /** On the floor heat is a consequence; on a cooling machine, cooling lost. */
  predicate CouldFollow(g: Topology, sym: Record) {
    || (P.Floor(g.nodes, sym.device) && ReportsHeat(sym.alarmType, sym.metric))
    || ((P.Stands(g.nodes, sym.device, Unit) || P.Stands(g.nodes, sym.device, Plant)) &&
        LosesCooling(sym.alarmType, sym.category))
  }

  /** A feeder explains by tripping whole; a unit or plant machine by losing cooling. */
  predicate CouldCause(a: Alarm, t: Tier) {
    || (t == Power && a.instance == "" && PowerRootType(a.alarmType))
    || ((t == Unit || t == Plant) && LosesCooling(a.alarmType, a.category))
  }

  /** In view and open, or cleared within the last ten minutes. */
  predicate StillACause(a: Alarm, now: Time) {
    && !a.isSymptom && !a.shelved
    && (a.cleared ==> a.clearedAt.Some? && now - a.clearedAt.value < 10 * MINUTE)
  }

  /** An open fire alarm stands in the room. */
  ghost predicate Burning(rows: Rows, rooms: Rooms, room: Option<RoomId>) {
    room.Some? && exists f :: BurnsIn(rows, rooms, f, room)
  }

  predicate BurnsIn(rows: Rows, rooms: Rooms, f: AlarmId, room: Option<RoomId>) {
    f in rows && !rows[f].cleared && rows[f].category == Some("fire") &&
    rows[f].device in rooms && rooms[rows[f].device] == room
  }

  /** The row `x`, acting at tier `t`, may be why `sym` was raised. */
  ghost predicate MayExplain(g: Topology, rooms: Rooms, rows: Rows, now: Time, sym: Record, x: AlarmId, t: Tier) {
    && x in rows && x != sym.id
    && StillACause(rows[x], now)
    && rows[x].device in Ancestry(g, sym.device) && Ancestry(g, sym.device)[rows[x].device] == t
    && CouldCause(rows[x], t)
    && (t == Unit || t == Plant ==> !Burning(rows, rooms, RoomOf(g, rows[x].device)))
    && -60 * MINUTE <= rows[x].firstSeen - sym.firstSeen <= 10 * MINUTE
  }

  predicate Higher(t: Tier, u: Tier) {
    (t == Power && u != Power) || (t == Plant && u != Power && u != Plant)
  }

  /** `x` at `t` is named before `y` at `u`: the higher tier, then what is open, then the older, then the id. */
  predicate NamedBefore(rows: Rows, x: AlarmId, t: Tier, y: AlarmId, u: Tier)
    requires x in rows && y in rows
  {
    var a, b := rows[x], rows[y];
    || Higher(t, u)
    || (t == u && !a.cleared && b.cleared)
    || (t == u && a.cleared == b.cleared && a.firstSeen < b.firstSeen)
    || (t == u && a.cleared == b.cleared && a.firstSeen == b.firstSeen && x < y)
  }

  ghost predicate Foremost(
    g: Topology, rooms: Rooms, rows: Rows, now: Time, sym: Record, x: AlarmId, t: Tier)
  {
    && MayExplain(g, rooms, rows, now, sym, x, t)
    && forall y, u :: MayExplain(g, rooms, rows, now, sym, y, u) && y != x ==> NamedBefore(rows, x, t, y, u)
  }

  /** The root is open and no less severe, or somebody else speaks for it in the symptom's room. */
  predicate IsFolded(g: Topology, rows: Rows, sym: Record, x: AlarmId, reps: map<RepKey, AlarmId>)
    requires x in rows
  {
    var key := RepKey(x, RoomOf(g, sym.device), sym.alarmType);
    || (!rows[x].cleared && SeverityRank(rows[x].severity) <= SeverityRank(sym.severity))
    || (key in reps && reps[key] != sym.id)
  }

  // ----------------------------------------------------- rule by rule, the code's tests

  lemma TakesPartByRule(g: Topology, sym: Record)
    ensures TakesPart(g, sym) <==> CouldFollow(g, sym)
  {
    hide ThermalSymptom, ThermalMetric, NotACapacityLoss, UnitGeneric, HasCoolingPrefix;
  }

  lemma EligibleByRule(a: Alarm, t: Tier)
    ensures RootEligible(a.alarmType, a.category, t, a.instance) <==> CouldCause(a, t)
  {
    hide PowerRootType, NotACapacityLoss, UnitGeneric, HasCoolingPrefix;
  }

  lemma FiresByRule(rows: Rows, rooms: Rooms, room: Option<RoomId>)
    ensures Burning(rows, rooms, room) <==> room.Some? && room.value in FireRooms(rows, rooms)
  {
    if room.Some? && room.value in FireRooms(rows, rooms) {
      var f :| f in rows && !rows[f].cleared && rows[f].category == Some("fire") &&
               rows[f].device in rooms && rooms[rows[f].device].Some? && room.value == rooms[rows[f].device].value;
      assert BurnsIn(rows, rooms, f, room);
    }
    if f :| room.Some? && BurnsIn(rows, rooms, f, room) {
      assert rooms[rows[f].device].value in FireRooms(rows, rooms);
    }
  }

  lemma CandidatesByRule(a: Alarm, now: Time)
    ensures OpenVisible(a) || RecentRoot(a, now) <==> StillACause(a, now)
  {
  }

  // ------------------------------------------------------------------ the loop

  /** The list holds, once each, rows that are still causes, and all of those on the symptom's ancestors. */
  ghost predicate Offered(g: Topology, rows: Rows, now: Time, d: DeviceId, offered: seq<Record>) {
    && DistinctIds(offered)
    && (forall r :: r in offered ==>
          r.id in rows && r == RecordOf(r.id, rows[r.id], rows[r.id].cleared) && StillACause(rows[r.id], now))
    && (forall id :: id in rows && StillACause(rows[id], now) && rows[id].device in Ancestry(g, d) ==>
          RecordOf(id, rows[id], rows[id].cleared) in offered)
  }

  lemma ExplainsByRule(g: Topology, rooms: Rooms, rows: Rows, now: Time, sym: Record, x: AlarmId)
    requires WellDrawn(g) && x in rows && StillACause(rows[x], now)
    ensures var r, anc := RecordOf(x, rows[x], rows[x].cleared), Ancestry(g, sym.device);
            Explains(g, anc, FireRooms(rows, rooms), sym, r) <==>
              r.device in anc && MayExplain(g, rooms, rows, now, sym, x, anc[r.device])
  {
    hide WellDrawn, StillACause, FireRooms, RootEligible, CouldCause, TierGuard, Burning, Ancestry;
    var d := rows[x].device;
    if d in Ancestry(g, sym.device) {
      var t := Ancestry(g, sym.device)[d];
      TierGuardNeverRejects(g, sym.device, d);
      EligibleByRule(rows[x], t);
      FiresByRule(rows, rooms, RoomOf(g, d));
      assert t in {Unit, Plant} <==> t == Unit || t == Plant;
    }
  }

  lemma BeforeByRule(anc: map<DeviceId, Tier>, rows: Rows, x: AlarmId, y: AlarmId)
    requires x in rows && y in rows && rows[x].device in anc && rows[y].device in anc
    ensures var a, b := RecordOf(x, rows[x], rows[x].cleared), RecordOf(y, rows[y], rows[y].cleared);
            var t, u := anc[a.device], anc[b.device];
            t != Server && t != Zone && u != Server && u != Zone ==>
              (Before(anc, a, b) <==> NamedBefore(rows, x, t, y, u))
  {
  }

  lemma BeforeIsTotal(anc: map<DeviceId, Tier>, a: Record, b: Record)
    requires a.device in anc && b.device in anc && a.id != b.id
    ensures Before(anc, a, b) || Before(anc, b, a)
  {
  }

  /** The loop is left with the foremost of the rows that may explain, and with nothing only where no row may. */
  lemma BestByRule(g: Topology, rooms: Rooms, rows: Rows, now: Time, sym: Record, offered: seq<Record>)
    requires WellDrawn(g) && Offered(g, rows, now, sym.device, offered)
    ensures var best := Best(g, Ancestry(g, sym.device), FireRooms(rows, rooms), sym, offered);
            && (best.None? ==> forall x, t :: !MayExplain(g, rooms, rows, now, sym, x, t))
            && (best.Some? ==>
                  && best.value.id in rows && best.value.device == rows[best.value.id].device
                  && best.value == RecordOf(best.value.id, rows[best.value.id], rows[best.value.id].cleared)
                  && Foremost(g, rooms, rows, now, sym, best.value.id, Ancestry(g, sym.device)[best.value.device]))
  {
    hide WellDrawn, StillACause, FireRooms, Explains, Ancestry, Before, NamedBefore, Best;
    var anc, fires := Ancestry(g, sym.device), FireRooms(rows, rooms);
    var best := Best(g, anc, fires, sym, offered);
    BestIsLeast(g, anc, fires, sym, offered);
    forall x, t | MayExplain(g, rooms, rows, now, sym, x, t)
      ensures var r := RecordOf(x, rows[x], rows[x].cleared);
              r in offered && Explains(g, anc, fires, sym, r) && anc[r.device] == t
    {
      ExplainsByRule(g, rooms, rows, now, sym, x);
    }
    if best.Some? {
      var x := best.value.id;
      ExplainsByRule(g, rooms, rows, now, sym, x);
      var t := anc[rows[x].device];
      forall y, u | MayExplain(g, rooms, rows, now, sym, y, u) && y != x ensures NamedBefore(rows, x, t, y, u) {
        var a, b := best.value, RecordOf(y, rows[y], rows[y].cleared);
        BeforeIsTotal(anc, a, b);
        BeforeByRule(anc, rows, x, y);
      }
    }
  }

  /**
   `pick_root` over any such list: somebody is named exactly when the symptom could follow from something and
   some row may explain it; the one named is the foremost; and the symptom is folded or speaks by the rule.
   */
  lemma TheVerdict(
    g: Topology, rooms: Rooms, rows: Rows, now: Time, sym: Record, offered: seq<Record>, reps: map<RepKey, AlarmId>)
    requires WellDrawn(g) && Offered(g, rows, now, sym.device, offered)
    ensures Judged(g, rooms, rows, now, sym, reps, Verdict(g, FireRooms(rows, rooms), sym, offered, reps))
  {
    hide WellDrawn, Offered, FireRooms, TakesPart, CouldFollow, Ancestry, Best, MayExplain, Foremost;
    BestByRule(g, rooms, rows, now, sym, offered);
    TakesPartByRule(g, sym);
    var best := Best(g, Ancestry(g, sym.device), FireRooms(rows, rooms), sym, offered);
    if best.Some? { ForemostExplains(g, rooms, rows, now, sym, best.value.id,
        Ancestry(g, sym.device)[best.value.device]); }
  }

  lemma ForemostExplains(g: Topology, rooms: Rooms, rows: Rows, now: Time, sym: Record, x: AlarmId, t: Tier)
    requires Foremost(g, rooms, rows, now, sym, x, t)
    ensures MayExplain(g, rooms, rows, now, sym, x, t)
  {
  }

  /** What the verdict on a symptom has to be. */
  ghost predicate Judged(
    g: Topology, rooms: Rooms, rows: Rows, now: Time, sym: Record, reps: map<RepKey, AlarmId>, v: Option<Root>)
  {
    && (v.Some? <==> CouldFollow(g, sym) && exists x, t :: MayExplain(g, rooms, rows, now, sym, x, t))
    && (v.Some? ==>
          var x := v.value.record.id;
          && x in rows && v.value.record == RecordOf(x, rows[x], rows[x].cleared)
          && Foremost(g, rooms, rows, now, sym, x, v.value.tier)
          && v.value.suppress == IsFolded(g, rows, sym, x, reps)
          && v.value.representative == !v.value.suppress)
  }

  /** Every verdict of a sweep. */
  lemma SweepJudges(p: Plan, sym: Record, reps: map<RepKey, AlarmId>)
    requires FairPlan(p)
    ensures Judged(p.g, p.rooms, p.rows, p.now, sym, reps, Judge(p, sym, reps))
  {
    hide Judged, WellDrawn, FireRooms, Verdict, Ancestry, IsRepresentatives, ListsVisible, ListsOrphans;
    assert Offered(p.g, p.rows, p.now, sym.device, p.candidates);
    TheVerdict(p.g, p.rooms, p.rows, p.now, sym, p.candidates, reps);
  }

  /** A cooling machine in a burning room is nobody's root: the fire panel stopped it. */
  lemma NoRootInABurningRoom(
    g: Topology, rooms: Rooms, rows: Rows, now: Time, sym: Record, reps: map<RepKey, AlarmId>, v: Root, f: AlarmId)
    requires Judged(g, rooms, rows, now, sym, reps, Some(v)) && (v.tier == Unit || v.tier == Plant)
    requires f in rows && !rows[f].cleared && rows[f].category == Some("fire") && rows[f].device in rooms
    ensures RoomOf(g, v.record.device).None? || rooms[rows[f].device] != RoomOf(g, v.record.device)
  {
    var room := RoomOf(g, v.record.device);
    if room.Some? && rooms[rows[f].device] == room { assert BurnsIn(rows, rooms, f, room); assert false; }
  }

  // ------------------------------------------------------------ who already speaks

  /** An alarm in view, tied to the key's root, of its type and in its room. */
  predicate SpeaksUnder(rows: Rows, rooms: Rooms, y: AlarmId, k: RepKey) {
    && y in rows && !rows[y].cleared && !rows[y].isSymptom
    && rows[y].l5.Some? && rows[y].l5.value.root == k.root && rows[y].alarmType == k.alarmType
    && rows[y].device in rooms && rooms[rows[y].device] == k.room
  }

  /** A key has a name just when some alarm speaks under it, and the name is that of an oldest one. */
  lemma RepresentativesByRule(rows: Rows, rooms: Rooms, reps: map<RepKey, AlarmId>, k: RepKey)
    requires IsRepresentatives(rows, rooms, reps)
    ensures k in reps <==> exists y :: SpeaksUnder(rows, rooms, y, k)
    ensures k in reps ==> SpeaksUnder(rows, rooms, reps[k], k)
    ensures k in reps ==> forall y :: SpeaksUnder(rows, rooms, y, k) ==> rows[reps[k]].firstSeen <= rows[y].firstSeen
  {
    forall y ensures SpeaksUnder(rows, rooms, y, k) <==>
        y in rows && Voice(rows[y]) && rows[y].device in rooms && VoiceKey(rows[y], rooms) == k
    {
    }
    if k in reps { assert SpeaksUnder(rows, rooms, reps[k], k); }
  }

  // ------------------------------------------------------------------ the raise

  /** The test on the name alone turns away nothing that could follow from something, on a device of any tier. */
  lemma EarlyTestLosesNothing(alarmType: string, category: Option<string>, tier: Option<Tier>, metric: Option<string>)
    requires SymptomEligible(alarmType, category, tier, metric)
    ensures MightTakePart(alarmType, category, metric)
  {
    hide IsThermal, IsCoolingCondition;
  }

  /** What the test on the name asks: heat, or cooling lost, going by what the caller knows. */
  lemma EarlyTestByRule(alarmType: string, category: Option<string>, metric: Option<string>)
    ensures MightTakePart(alarmType, category, metric) <==>
        ReportsHeat(alarmType, metric) || LosesCooling(alarmType, category)
  {
    hide ThermalSymptom, ThermalMetric, NotACapacityLoss, UnitGeneric, HasCoolingPrefix;
  }

  /** The caller gave a category, or the one on the row changes nothing. */
  predicate CategoryKnown(a: Alarm, category: Option<string>) {
    category.Some? || LosesCooling(a.alarmType, a.category) == LosesCooling(a.alarmType, None)
  }

  /** The alarm as a symptom: where the caller gave no category, a cooling machine's alarm has the one on its row. */
  function RaisedAs(g: Topology, rows: Rows, id: AlarmId, category: Option<string>, metric: Option<string>): Record
    requires id in rows
  {
    var a := rows[id];
    var onMachine := P.Stands(g.nodes, a.device, Unit) || P.Stands(g.nodes, a.device, Plant);
    Record(id, a.device, a.alarmType, a.instance,
      if category.None? && onMachine then a.category else category, metric, a.severity, a.firstSeen, false)
  }

  lemma PresentedByRule(g: Topology, rows: Rows, id: AlarmId, category: Option<string>, metric: Option<string>)
    requires id in rows
    ensures Presented(g, rows, id, category, metric) == RaisedAs(g, rows, id, category, metric)
  {
  }

  /** Where the category is known, the test on the name loses nothing that could follow from something. */
  lemma NothingIsTurnedAway(g: Topology, rows: Rows, id: AlarmId, category: Option<string>, metric: Option<string>)
    requires id in rows && CategoryKnown(rows[id], category)
    requires CouldFollow(g, RaisedAs(g, rows, id, category, metric))
    ensures ReportsHeat(rows[id].alarmType, metric) || LosesCooling(rows[id].alarmType, category)
  {
    hide LosesCooling, ReportsHeat;
  }

  /** What the raise path leaves on the row: the tie, and the fold where it folds. */
  predicate TiedBy(a: Alarm, z: Alarm, v: Root, now: Time) {
    && z == a.(isSymptom := z.isSymptom, rootCause := z.rootCause, l5 := z.l5)
    && z.l5 == Some(Mark(v.record.id, v.tier, v.suppress, now))
    && z.isSymptom == (v.suppress || a.isSymptom)
    && z.rootCause == (if v.suppress then Some(v.record.id) else a.rootCause)
  }

  /**
   `correlate`: it names somebody exactly when the name passes the early test, the alarm could follow from
   something and some row may explain it; whom it names, and whether the alarm folds, are by the rule; and the
   alarm's own row is the only one written.
   */
  lemma RaiseExactly(
    g: Topology, rooms: Rooms, now: Time, rows: Rows, id: AlarmId, category: Option<string>, metric: Option<string>,
    rows': Rows, verdict: Option<Root>)
    requires WellDrawn(g) && Correlated(g, rooms, now, rows, id, category, metric, rows', verdict)
    ensures var sym := RaisedAs(g, rows, id, category, metric);
            if ReportsHeat(sym.alarmType, metric) || LosesCooling(sym.alarmType, category)
            then exists reps :: IsRepresentatives(rows, rooms, reps) && Judged(g, rooms, rows, now, sym, reps, verdict)
            else verdict.None?
    ensures rows'.Keys == rows.Keys && forall x :: x in rows && x != id ==> rows'[x] == rows[x]
    ensures if verdict.None? then rows'[id] == rows[id] else TiedBy(rows[id], rows'[id], verdict.value, now)
  {
    hide WellDrawn, Judged, FireRooms, Ancestry, Verdict, IsRepresentatives, MightTakePart, Presented, RaisedAs;
    PresentedByRule(g, rows, id, category, metric);
    var sym := Presented(g, rows, id, category, metric);
    EarlyTestByRule(sym.alarmType, category, metric);
    if MightTakePart(sym.alarmType, category, metric) {
      var near, reps :| ListsNear(g, rows, now, sym.device, near) && IsRepresentatives(rows, rooms, reps) &&
        verdict == Verdict(g, FireRooms(rows, rooms), sym, near, reps);
      assert Offered(g, rows, now, sym.device, near);
      TheVerdict(g, rooms, rows, now, sym, near, reps);
    }
  }

  /**
   Where the category is known, or the alarm reports heat, the raise path misses nothing: no root is named if
   and only if the alarm could follow from nothing or no row on its ancestors may explain it.
   */
  lemma RaiseMissesNothing(
    g: Topology, rooms: Rooms, now: Time, rows: Rows, id: AlarmId, category: Option<string>, metric: Option<string>,
    rows': Rows, verdict: Option<Root>)
    requires WellDrawn(g) && Correlated(g, rooms, now, rows, id, category, metric, rows', verdict)
    requires CategoryKnown(rows[id], category) || ReportsHeat(rows[id].alarmType, metric)
    ensures var sym := RaisedAs(g, rows, id, category, metric);
            verdict.None? <==> !CouldFollow(g, sym) || forall x, t :: !MayExplain(g, rooms, rows, now, sym, x, t)
  {
    hide WellDrawn, ListsNear, Verdict, CouldFollow, MayExplain, ReportsHeat, LosesCooling, CategoryKnown,
      IsRepresentatives;
    RaiseExactly(g, rooms, now, rows, id, category, metric, rows', verdict);
    if CouldFollow(g, RaisedAs(g, rows, id, category, metric)) && CategoryKnown(rows[id], category) {
      NothingIsTurnedAway(g, rows, id, category, metric);
    }
  }

  /**
   In the one other case - the caller gave none, only the row's makes the alarm a cooling one, and it reports no
   heat - the raise path ties nothing, whatever is open. The sweep judges by the row's.
   */
  lemma AnUnknownCategoryIsMissed(
    g: Topology, rooms: Rooms, now: Time, rows: Rows, id: AlarmId, category: Option<string>, metric: Option<string>,
    rows': Rows, verdict: Option<Root>)
    requires WellDrawn(g) && Correlated(g, rooms, now, rows, id, category, metric, rows', verdict)
    requires !CategoryKnown(rows[id], category) && !ReportsHeat(rows[id].alarmType, metric)
    ensures verdict.None? && rows' == rows
  {
    hide WellDrawn, CouldFollow, MayExplain, ReportsHeat, IsRepresentatives, Verdict;
    EarlyTestByRule(rows[id].alarmType, category, metric);
    assert !LosesCooling(rows[id].alarmType, None);
  }
}
