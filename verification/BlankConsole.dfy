/**
 A run that leaves a room blank. A fan alarm explains a hot server, which is folded under it; the fan
 alarm clears; a second server of the room gets hot and speaks for it; a new alarm on the same unit is
 in time to explain the second server only. The sweep moves the second server to the new alarm, yet
 still counts it as the voice of the old one, so the first server stays hidden.
 */
module BlankConsole {
  import opened Wrappers
  import opened CoolingTaxonomy
  import opened CoolingGraphs
  import opened RootChoice
  import opened AlarmTable
  import opened CoolingSweeps
  import opened Attribution
  import opened NeverBlank

  // The devices, and the alarms by id: the old root, the new one, the voice and the hidden.
  const UNIT: DeviceId := 10
  const FIRST: DeviceId := 11
  const SECOND_SERVER: DeviceId := 12
  const ROOM: RoomId := 7
  const OLD: AlarmId := 1
  const NEW: AlarmId := 2
  const VOICE: AlarmId := 3
  const HIDDEN: AlarmId := 4

  function Hall(): Topology {
    Topology(
      map[UNIT := Node(Crah, Some(ROOM), None), FIRST := Node(ServerBox, Some(ROOM), None),
          SECOND_SERVER := Node(ServerBox, Some(ROOM), None)],
      map[], map[], map[], map[ROOM := [UNIT]], map[])
  }

  function HallRooms(): Rooms {
    map[UNIT := Some(ROOM), FIRST := Some(ROOM), SECOND_SERVER := Some(ROOM)]
  }

  lemma OneUnitOverIt(g: Topology, d: DeviceId, u: DeviceId)
    requires TierOf(g, d) == Some(Server) && TierOf(g, u) == Some(Unit) && d != u
    requires Nbrs(g.coolingNbrs, d) == {} && Nbrs(g.feeders, u) == {} && SiteOf(g, u) == None
    requires Listed(g.roomUnits, RoomOf(g, d)) == [u]
    ensures Ancestry(g, d) == map[u := Unit]
  {
    assert Explicit(g, d) == {};
    assert Coolers(g, d) == {u};
    assert SitePlant(g, u) == {} && Feeders(g, u) == {};
    assert Over(g, u) == {(u, Unit)};
    var arrivals := Upstream(g, d);
    assert arrivals == AllOver(g, {u}) == {(u, Unit)};
    HighestIsUnique(Ancestry(g, d), map[u := Unit], d, arrivals);
  }

  lemma HallAncestry(d: DeviceId)
    requires d == FIRST || d == SECOND_SERVER
    ensures Ancestry(Hall(), d) == map[UNIT := Unit]
  {
    OneUnitOverIt(Hall(), d, UNIT);
  }

  lemma HallIsWellDrawn()
    ensures WellDrawn(Hall())
  {
  }

  /** What the fan alarm and the servers' alarms are called, and how severe they all are. */
  datatype Kinds = Kinds(down: string, hot: string, severity: string)

  /** A cooling alarm, and a hot device's, of a severity there is. */
  ghost predicate Real(kinds: Kinds) {
    IsCoolingCondition(kinds.down, None) && ThermalSymptom(kinds.hot) && IsSeverity(kinds.severity)
  }

  function Down(kinds: Kinds, since: Time, clearedAt: Option<Time>): Alarm {
    Alarm(UNIT, kinds.down, "", None, None, kinds.severity, since, clearedAt.Some?, clearedAt, false, false, None, None)
  }

  function Hot(kinds: Kinds, d: DeviceId, since: Time): Alarm {
    Alarm(d, kinds.hot, "", None, None, kinds.severity, since, false, None, false, false, None, None)
  }

  /** The first server as the raise path leaves it, folded; and the second, in view and speaking. */
  function HotHidden(kinds: Kinds): Alarm {
    Hot(kinds, FIRST, 0).(isSymptom := true, rootCause := Some(OLD), l5 := Some(Mark(OLD, Unit, true, 0)))
  }

  function HotSpeaking(kinds: Kinds): Alarm {
    Hot(kinds, SECOND_SERVER, LEAD).(l5 := Some(Mark(OLD, Unit, false, LEAD)))
  }

  // The table step by step: the first alarms, the first server folded, the root cleared and the second
  // server hot, the second server speaking, and the new alarm.

  function Rows1(kinds: Kinds): Rows {
    map[OLD := Down(kinds, 0, None), HIDDEN := Hot(kinds, FIRST, 0)]
  }

  function Rows2(kinds: Kinds): Rows {
    map[OLD := Down(kinds, 0, None), HIDDEN := HotHidden(kinds)]
  }

  function Rows3(kinds: Kinds): Rows {
    map[OLD := Down(kinds, 0, Some(LEAD)), HIDDEN := HotHidden(kinds), VOICE := Hot(kinds, SECOND_SERVER, LEAD)]
  }

  function Rows4(kinds: Kinds): Rows {
    map[OLD := Down(kinds, 0, Some(LEAD)), HIDDEN := HotHidden(kinds), VOICE := HotSpeaking(kinds)]
  }

  function HallRows(kinds: Kinds): Rows {
    map[OLD := Down(kinds, 0, Some(LEAD)), HIDDEN := HotHidden(kinds), VOICE := HotSpeaking(kinds),
        NEW := Down(kinds, 2 * LEAD, None)]
  }

  /** Nothing is on fire in any of them. */
  lemma NoFires(rows: Rows)
    requires forall id :: id in rows ==> rows[id].category == None
    ensures FireRooms(rows, HallRooms()) == {}
  {
  }

  /** The raise path on a hot server, with the fan alarm the only one near it and nobody speaking yet. */
  lemma RaisePathTiesToTheFan(kinds: Kinds, rows: Rows, id: AlarmId, now: Time, rows': Rows)
    requires Real(kinds) && OLD in rows && id in rows && id != OLD
    requires rows[id] == Hot(kinds, FIRST, 0) || rows[id] == Hot(kinds, SECOND_SERVER, LEAD)
    requires rows[OLD] == Down(kinds, 0, None) || (rows[OLD] == Down(kinds, 0, Some(LEAD)) && now == LEAD)
    requires forall x :: x in rows ==>
        rows[x].category == None && !Voice(rows[x]) && (x != OLD ==> rows[x].device != UNIT)
    requires rows' == rows[id := rows[id].(
               isSymptom := !rows[OLD].cleared, rootCause := if rows[OLD].cleared then None else Some(OLD),
               l5 := Some(Mark(OLD, Unit, !rows[OLD].cleared, now)))]
    ensures CorrelateStep(Hall(), HallRooms(), rows, rows')
  {
    var g, d, fan := Hall(), rows[id].device, RecordOf(OLD, rows[OLD], rows[OLD].cleared);
    HallAncestry(d);
    NoFires(rows);
    var sym := Presented(g, rows, id, None, None);
    var verdict := Root(fan, Unit, !rows[OLD].cleared, rows[OLD].cleared);
    FanIsChosen(kinds, sym, fan);
    assert ListsNear(g, rows, now, d, [fan]) by { NearIsTheFan(rows, now, d, fan); }
    assert IsRepresentatives(rows, HallRooms(), map[]);
    assert MightTakePart(sym.alarmType, None, None);
    assert PlainTrip(rows[id].alarmType, rows[id].instance, None, None);
    assert Correlated(g, HallRooms(), now, rows, id, None, None, rows', Some(verdict));
  }

  lemma NearIsTheFan(rows: Rows, now: Time, d: DeviceId, fan: Record)
    requires d == FIRST || d == SECOND_SERVER
    requires OLD in rows && fan == RecordOf(OLD, rows[OLD], rows[OLD].cleared)
    requires rows[OLD].device == UNIT && (OpenVisible(rows[OLD]) || RecentRoot(rows[OLD], now))
    requires forall x :: x in rows && x != OLD ==> rows[x].device != UNIT
    ensures ListsNear(Hall(), rows, now, d, [fan])
  {
    HallAncestry(d);
  }

  /** A hot server's only candidate is its root: folded under it while it is open, speaking once it has cleared. */
  lemma FanIsChosen(kinds: Kinds, sym: Record, fan: Record)
    requires Real(kinds) && (sym.device == FIRST || sym.device == SECOND_SERVER) && sym.alarmType == kinds.hot
    requires sym.category == None && sym.metric == None && sym.severity == fan.severity && sym.id != fan.id
    requires fan.device == UNIT && fan.alarmType == kinds.down && fan.category == None && fan.instance == ""
    requires InWindow(fan.firstSeen, sym.firstSeen)
    ensures Verdict(Hall(), {}, sym, [fan], map[]) == Some(Root(fan, Unit, !fan.cleared, fan.cleared))
  {
    HallAncestry(sym.device);
    assert Explains(Hall(), map[UNIT := Unit], {}, sym, fan);
    BestIsLeast(Hall(), map[UNIT := Unit], {}, sym, [fan]);
    assert [fan][0] == fan;
  }

  // What happens in between: alarms are raised without a mark, and the first root clears.

  lemma FirstAlarms(kinds: Kinds)
    ensures EnvStep(map[], Rows1(kinds))
  {
    hide PowerTrip;
  }

  lemma RootClears(kinds: Kinds)
    ensures EnvStep(Rows2(kinds), Rows3(kinds))
  {
    hide PowerTrip;
  }

  lemma NewAlarm(kinds: Kinds)
    ensures EnvStep(Rows4(kinds), HallRows(kinds))
  {
    hide PowerTrip;
  }

  lemma FirstIsFolded(kinds: Kinds)
    requires Real(kinds)
    ensures CorrelateStep(Hall(), HallRooms(), Rows1(kinds), Rows2(kinds))
  {
    hide Real, CorrelateStep;
    RaisePathTiesToTheFan(kinds, Rows1(kinds), HIDDEN, 0, Rows2(kinds));
  }

  lemma SecondSpeaks(kinds: Kinds)
    requires Real(kinds)
    ensures CorrelateStep(Hall(), HallRooms(), Rows3(kinds), Rows4(kinds))
  {
    hide Real, CorrelateStep;
    RaisePathTiesToTheFan(kinds, Rows3(kinds), VOICE, LEAD, Rows4(kinds));
  }

  lemma HallIsLegal(kinds: Kinds)
    requires Real(kinds)
    ensures Legal(Rows1(kinds)) && Legal(Rows2(kinds)) && Legal(Rows3(kinds)) && Legal(Rows4(kinds)) &&
        Legal(HallRows(kinds)) && Legal(map[])
  {
    hide IsSeverity;
  }

  function HallPlan(kinds: Kinds): Plan {
    var rows := HallRows(kinds);
    var listed := [RecordOf(VOICE, rows[VOICE], false), RecordOf(NEW, rows[NEW], false)];
    Plan(Hall(), HallRooms(), 2 * LEAD, rows, listed, listed, {}, map[RepKey(OLD, Some(ROOM), kinds.hot) := VOICE],
         [Orphan(RecordOf(VOICE, rows[VOICE], false), OLD), Orphan(RecordOf(HIDDEN, rows[HIDDEN], false), OLD)])
  }

  lemma HallListings(rows: Rows, kinds: Kinds, p: Plan)
    requires rows == HallRows(kinds) && p == HallPlan(kinds)
    ensures ListsVisible(rows, p.visible) && ListsCandidates(rows, p.now, p.candidates)
  {
    assert p.visible[0] in p.visible && p.visible[1] in p.visible;
  }

  lemma HallOrphans(rows: Rows, kinds: Kinds, p: Plan)
    requires rows == HallRows(kinds) && p == HallPlan(kinds)
    ensures ListsOrphans(rows, p.orphans)
  {
    forall id | Orphaned(rows, id) ensures exists i :: 0 <= i < |p.orphans| && p.orphans[i].record.id == id {
      assert p.orphans[if id == VOICE then 0 else 1].record.id == id;
    }
  }

  lemma HallVoices(rows: Rows, kinds: Kinds, p: Plan)
    requires rows == HallRows(kinds) && p == HallPlan(kinds)
    ensures IsRepresentatives(rows, p.rooms, p.reps) && FireRooms(rows, p.rooms) == {}
  {
    assert forall id :: id in rows && Voice(rows[id]) <==> id == VOICE;
  }

  lemma HallPlanIsFair(kinds: Kinds)
    ensures FairPlan(HallPlan(kinds)) && RoomsAgree(HallPlan(kinds))
  {
    hide WellDrawn, ListsVisible, ListsCandidates, ListsOrphans, IsRepresentatives, FireRooms;
    var p := HallPlan(kinds);
    HallIsWellDrawn();
    HallListings(p.rows, kinds, p);
    HallOrphans(p.rows, kinds, p);
    HallVoices(p.rows, kinds, p);
  }

  /** The one that speaks is offered the new alarm; the hidden one is offered nothing. */
  lemma HallOffers(kinds: Kinds)
    requires Real(kinds)
    ensures var p := HallPlan(kinds); Chosen(p, VOICE) == Some(NEW) && Chosen(p, HIDDEN) == None
  {
    var p := HallPlan(kinds);
    HallAncestry(FIRST);
    HallAncestry(SECOND_SERVER);
    var anc := map[UNIT := Unit];
    assert Explains(p.g, anc, p.fires, Rec(p, VOICE), p.candidates[1]);
    BestIsLeast(p.g, anc, p.fires, Rec(p, VOICE), p.candidates);
    BestIsLeast(p.g, anc, p.fires, Rec(p, HIDDEN), p.candidates);
  }

  lemma StrayedVoice(p: Plan, ch: Offers, k: RepKey)
    requires FairPlan(p) && RoomsAgree(p) && ch == OffersOf(p)
    requires k.root in p.rows && p.rows[k.root].cleared && k in p.reps && !Stays(p.rows, ch, p.reps[k])
    requires forall y :: SpeaksFor(p, p.rows, k, y) ==> y == p.reps[k]
    ensures !HasVoice(p, Swept(p), k)
    ensures forall y :: OrphanClaims(p, ch, y, k) && Stays(p.rows, ch, y) && p.rows[y].isSymptom ==>
              y in Swept(p) && Swept(p)[y] == p.rows[y]
  {
    ExactlyWhenVoiced(p, k);
    OutcomeOf(p, k);
    forall y | OrphanClaims(p, ch, y, k) && Stays(p.rows, ch, y) && p.rows[y].isSymptom
      ensures y in Swept(p) && Swept(p)[y] == p.rows[y]
    {
      StaysHidden(p, ch, k, OrphanPass(p, |p.orphans|), AdoptPass(p, |p.visible|), y);
    }
  }

  lemma StaysHidden(p: Plan, ch: Offers, k: RepKey, r: Tally, t: Tally, y: AlarmId)
    requires Outcome(p, ch, k, r, t) && k in p.reps
    requires OrphanClaims(p, ch, y, k) && Stays(p.rows, ch, y) && p.rows[y].isSymptom
    ensures y in t.rows && t.rows[y] == p.rows[y]
  {
    assert Settled(p, ch, k, r, y);
    assert !VisibleIn(p, |p.visible|, y);
  }

  lemma HallKey(p: Plan, ch: Offers, k: RepKey, kinds: Kinds)
    requires p == HallPlan(kinds) && k == RepKey(OLD, Some(ROOM), kinds.hot) && ch.Keys == p.rows.Keys
    requires ch[VOICE] == Some(NEW) && ch[HIDDEN] == None
    ensures k == KeyFor(p.g, Rec(p, HIDDEN), OLD) && k in p.reps && !Stays(p.rows, ch, p.reps[k])
    ensures forall y :: SpeaksFor(p, p.rows, k, y) ==> y == p.reps[k]
    ensures OrphanClaims(p, ch, HIDDEN, k) && Stays(p.rows, ch, HIDDEN)
  {
  }

  /**
   Six steps from the empty table, the last of them a sweep, after which an open alarm is hidden under
   a cleared root, and nothing in its room and of its type speaks for that root.
   */
  lemma AMovedVoiceLeavesABlank(kinds: Kinds) returns (trace: seq<Rows>, p: Plan)
    requires Real(kinds)
    ensures Run(Hall(), HallRooms(), trace) && |trace| == 7 && forall n :: 0 <= n < 6 ==> Legal(trace[n])
    ensures FairPlan(p) && RoomsAgree(p) && p.g == Hall() && p.rows == trace[5] == HallRows(kinds) &&
        trace[6] == Swept(p)
    ensures HIDDEN in trace[6] && trace[6][HIDDEN] == HotHidden(kinds) && OLD in trace[5] && trace[5][OLD].cleared
    ensures !HasVoice(p, trace[6], KeyFor(p.g, Rec(p, HIDDEN), OLD))
  {
    hide Real, EnvStep, CorrelateStep, SweepStep, WellDrawn, Legal, FairPlan, RoomsAgree, HasVoice, Swept, HallPlan;
    hide Hall, HallRooms, Rows1, Rows2, Rows3, Rows4, HallRows, HotHidden;
    p := BlankSweep(kinds);
    HallIsWellDrawn();
    FirstAlarms(kinds);
    FirstIsFolded(kinds);
    RootClears(kinds);
    SecondSpeaks(kinds);
    NewAlarm(kinds);
    trace := [map[], Rows1(kinds), Rows2(kinds), Rows3(kinds), Rows4(kinds), HallRows(kinds), Swept(p)];
    HallIsLegal(kinds);
  }

  lemma BlankSweep(kinds: Kinds) returns (p: Plan)
    requires Real(kinds)
    ensures FairPlan(p) && RoomsAgree(p) && p.g == Hall() && p.rooms == HallRooms() && p.rows == HallRows(kinds)
    ensures SweepStep(Hall(), HallRooms(), HallRows(kinds), Swept(p))
    ensures HIDDEN in p.rows && OLD in p.rows && p.rows[OLD].cleared
    ensures HIDDEN in Swept(p) && Swept(p)[HIDDEN] == HotHidden(kinds)
    ensures !HasVoice(p, Swept(p), KeyFor(p.g, Rec(p, HIDDEN), OLD))
  {
    hide FairPlan, RoomsAgree, HasVoice, Swept, Chosen, Real;
    p := HallPlan(kinds);
    HallPlanIsFair(kinds);
    HallOffers(kinds);
    var ch, k := OffersOf(p), RepKey(OLD, Some(ROOM), kinds.hot);
    HallKey(p, ch, k, kinds);
    StrayedVoice(p, ch, k);
  }

  lemma SuchKindsExist()
    ensures Real(Kinds("crah_fan_fail", "inlet_temp_high", "MAJOR"))
  {
  }
}
