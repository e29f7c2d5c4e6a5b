/**
 The alarm rows the cooling correlator reads and writes, the SQL selections it starts
 from, `mark`, the raise-time `correlate`, and the two loops of `sweep` as functions of
 the snapshots they work on.

 A `Plan` is everything `sweep` reads before it writes: the rows, the candidates, the fire
 rooms, the representatives and the orphaned symptoms, in the orders the database returned
 them. `OrphanPass` and `AdoptPass` are the states after the first n turns of each loop.
 */
module AlarmTable {
  import opened Wrappers
  import opened CoolingTaxonomy
  import opened CoolingGraphs
  import opened RootChoice

  /** A cleared root still adopts new heat for this long. */
  const RESTORE_HOLD: Time := 600 * SECOND

  /** The `l5` attribute: the cooling root an alarm is tied to. */
  datatype Mark = Mark(root: AlarmId, tier: Tier, suppressed: bool, at: Time)

  datatype Alarm = Alarm(
    device: DeviceId, alarmType: string, instance: string, category: Option<string>, metric: Option<string>,
    severity: string, firstSeen: Time, cleared: bool, clearedAt: Option<Time>, shelved: bool,
    isSymptom: bool, rootCause: Option<AlarmId>, l5: Option<Mark>)

  type Rows = map<AlarmId, Alarm>

  /** What the columns allow: a severity of the enumeration, and a clearing time exactly on cleared rows. */
  ghost predicate Legal(rows: Rows) {
    forall id :: id in rows ==> IsSeverity(rows[id].severity) && (rows[id].cleared <==> rows[id].clearedAt.Some?)
  }

  /** Where the database says each device stands; devices without a room, or unknown, have none. */
  type Rooms = map<DeviceId, Option<RoomId>>

  function RecordOf(id: AlarmId, a: Alarm, cleared: bool): Record {
    Record(id, a.device, a.alarmType, a.instance, a.category, a.metric, a.severity, a.firstSeen, cleared)
  }

  // ------------------------------------------------------------- the selections

  predicate OpenVisible(a: Alarm) {
    !a.cleared && !a.isSymptom && !a.shelved
  }

  predicate RecentRoot(a: Alarm, now: Time) {
    a.cleared && !a.isSymptom && !a.shelved && a.clearedAt.Some? && a.clearedAt.value > now - RESTORE_HOLD
  }

  /** A visible open alarm that is tied to a root: it speaks for something. */
  predicate Voice(a: Alarm) {
    !a.cleared && !a.isSymptom && a.l5.Some?
  }

  /** A tied open alarm whose root's row says CLEARED. */
  predicate Orphaned(rows: Rows, id: AlarmId) {
    id in rows && !rows[id].cleared && rows[id].l5.Some? &&
    rows[id].l5.value.root in rows && rows[rows[id].l5.value.root].cleared
  }

  function FireRooms(rows: Rows, rooms: Rooms): set<RoomId> {
    set id | id in rows && !rows[id].cleared && rows[id].category == Some("fire") &&
             rows[id].device in rooms && rooms[rows[id].device].Some? :: rooms[rows[id].device].value
  }

  /** The key a tied alarm is filed under by `representatives`, with the database's room. */
  function VoiceKey(a: Alarm, rooms: Rooms): RepKey
    requires a.l5.Some? && a.device in rooms
  {
    RepKey(a.l5.value.root, rooms[a.device], a.alarmType)
  }

  /**
   What `representatives` may return: every key of a voice, each with one voice of that key no
   later than any other. Equal onsets may come back from the database in either order.
   */
  ghost predicate IsRepresentatives(rows: Rows, rooms: Rooms, reps: map<RepKey, AlarmId>) {
    && (forall k :: k in reps ==>
          var x := reps[k];
          x in rows && Voice(rows[x]) && rows[x].device in rooms && VoiceKey(rows[x], rooms) == k &&
          forall y :: y in rows && Voice(rows[y]) && rows[y].device in rooms && VoiceKey(rows[y], rooms) == k ==>
            rows[x].firstSeen <= rows[y].firstSeen)
    && (forall y :: y in rows && Voice(rows[y]) && rows[y].device in rooms ==> VoiceKey(rows[y], rooms) in reps)
  }

  // ------------------------------------------------------------------- the marks

  /** `mark`: tie the row to its root; fold it only when the verdict says so. */
  function Marked(a: Alarm, root: Root, now: Time): Alarm {
    a.(isSymptom := a.isSymptom || root.suppress,
       rootCause := if root.suppress then Some(root.record.id) else a.rootCause,
       l5 := Some(Mark(root.record.id, root.tier, root.suppress, now)))
  }

  /** The first UPDATE of the orphan loop: back into view, the tie kept but no longer suppressing. */
  function Unfolded(a: Alarm): Alarm {
    a.(isSymptom := false, rootCause := None,
       l5 := if a.l5.Some? then Some(a.l5.value.(suppressed := false)) else None)
  }

  /** The closing UPDATE: a cleared alarm loses its mark, and what the mark alone had folded. */
  function Released(a: Alarm): Alarm {
    if a.cleared && a.l5.Some? then
      a.(isSymptom := if a.l5.value.suppressed then false else a.isSymptom,
         rootCause := if a.l5.value.suppressed then None else a.rootCause,
         l5 := None)
    else a
  }

  function ReleaseAll(rows: Rows): Rows {
    map id | id in rows :: Released(rows[id])
  }

  // ------------------------------------------------------------------- the sweep

  datatype Orphan = Orphan(record: Record, oldRoot: AlarmId)

  datatype Plan = Plan(
    g: Topology, rooms: Rooms, now: Time, rows: Rows,
    visible: seq<Record>, candidates: seq<Record>, fires: set<RoomId>,
    reps: map<RepKey, AlarmId>, orphans: seq<Orphan>)

  predicate Onset(a: Record, b: Record) {
    a.firstSeen < b.firstSeen || (a.firstSeen == b.firstSeen && a.id < b.id)
  }

  /** `visible` is every open visible alarm once, oldest first. */
  ghost predicate ListsVisible(rows: Rows, visible: seq<Record>) {
    && (forall r :: r in visible ==> r.id in rows && OpenVisible(rows[r.id]) && r == RecordOf(r.id, rows[r.id], false))
    && (forall id :: id in rows && OpenVisible(rows[id]) ==> RecordOf(id, rows[id], false) in visible)
    && (forall i, j :: 0 <= i < j < |visible| ==> Onset(visible[i], visible[j]))
  }

  /** The candidates: each open visible alarm and each recent root once, in any order. */
  ghost predicate ListsCandidates(rows: Rows, now: Time, candidates: seq<Record>) {
    && DistinctIds(candidates)
    && (forall r :: r in candidates ==>
          r.id in rows && r == RecordOf(r.id, rows[r.id], rows[r.id].cleared) &&
          (OpenVisible(rows[r.id]) || RecentRoot(rows[r.id], now)))
    && (forall id :: id in rows && (OpenVisible(rows[id]) || RecentRoot(rows[id], now)) ==>
          RecordOf(id, rows[id], rows[id].cleared) in candidates)
  }

  /** The orphaned symptoms, each once, in any order. */
  ghost predicate ListsOrphans(rows: Rows, orphans: seq<Orphan>) {
    && (forall i :: 0 <= i < |orphans| ==>
          var o := orphans[i];
          Orphaned(rows, o.record.id) && o.record == RecordOf(o.record.id, rows[o.record.id], false) &&
          o.oldRoot == rows[o.record.id].l5.value.root)
    && (forall id :: Orphaned(rows, id) ==> exists i :: 0 <= i < |orphans| && orphans[i].record.id == id)
    && (forall i, j :: 0 <= i < j < |orphans| ==> orphans[i].record.id != orphans[j].record.id)
  }

  /** The snapshots are what the queries may return on these rows. */
  ghost predicate FairPlan(p: Plan) {
    && WellDrawn(p.g)
    && ListsVisible(p.rows, p.visible)
    && ListsCandidates(p.rows, p.now, p.candidates)
    && p.fires == FireRooms(p.rows, p.rooms)
    && IsRepresentatives(p.rows, p.rooms, p.reps)
    && ListsOrphans(p.rows, p.orphans)
  }

  datatype Tally = Tally(
    rows: Rows, reps: map<RepKey, AlarmId>, tied: set<AlarmId>, moved: nat, spoken: nat, adopted: nat)

  function Judge(p: Plan, sym: Record, reps: map<RepKey, AlarmId>): Option<Root> {
    Verdict(p.g, p.fires, sym, p.candidates, reps)
  }

  function SetDefault(reps: map<RepKey, AlarmId>, k: RepKey, id: AlarmId): map<RepKey, AlarmId> {
    if k in reps then reps else reps[k := id]
  }

  // The UPDATEs by id: nothing happens when the row is not there.

  function WriteMark(rows: Rows, id: AlarmId, root: Root, now: Time): Rows {
    if id in rows then rows[id := Marked(rows[id], root, now)] else rows
  }

  function WriteUnfold(rows: Rows, id: AlarmId): Rows {
    if id in rows then rows[id := Unfolded(rows[id])] else rows
  }

  function WriteClearFold(rows: Rows, id: AlarmId): Rows {
    if id in rows then rows[id := rows[id].(isSymptom := false, rootCause := None)] else rows
  }

  /** One turn of the loop over the orphaned, once the verdict is in. */
  function OrphanTurn(p: Plan, t: Tally, o: Orphan, verdict: Option<Root>): Tally {
    var id := o.record.id;
    if verdict.None? || verdict.value.record.id == o.oldRoot then
      var key := KeyFor(p.g, o.record, o.oldRoot);
      if key in t.reps then t
      else t.(reps := t.reps[key := id], rows := WriteUnfold(t.rows, id), spoken := t.spoken + 1)
    else
      var root := verdict.value;
      t.(reps := if root.representative then SetDefault(t.reps, KeyFor(p.g, o.record, root.record.id), id) else t.reps,
         rows := WriteMark(WriteClearFold(t.rows, id), id, root, p.now),
         moved := t.moved + 1)
  }

  function OrphanStep(p: Plan, t: Tally, o: Orphan): Tally {
    OrphanTurn(p, t, o, Judge(p, o.record, t.reps))
  }

  /** The alarm is old, unknown or of no kind that could be a consequence: the second loop passes it by. */
  predicate Skipped(p: Plan, a: Record) {
    a.firstSeen < p.now - 2 * LAG || !TakesPart(p.g, a)
  }

  /** One turn of the loop over the visible, once the verdict is in. */
  function AdoptTurn(p: Plan, t: Tally, a: Record, verdict: Option<Root>): Tally {
    if verdict.None? then t
    else
      var root := verdict.value;
      var reps := if root.representative then SetDefault(t.reps, KeyFor(p.g, a, root.record.id), a.id) else t.reps;
      if root.representative && a.id in t.tied then t.(reps := reps)
      else t.(reps := reps, rows := WriteMark(t.rows, a.id, root, p.now), tied := t.tied +
        {a.id}, adopted := t.adopted + 1)
  }

  function AdoptStep(p: Plan, t: Tally, a: Record): Tally {
    if Skipped(p, a) then t else AdoptTurn(p, t, a, Judge(p, a, t.reps))
  }

  function OrphanPass(p: Plan, n: nat): Tally
    requires n <= |p.orphans|
  {
    if n == 0 then Tally(p.rows, p.reps, p.reps.Values, 0, 0, 0)
    else OrphanStep(p, OrphanPass(p, n - 1), p.orphans[n - 1])
  }

  function AdoptPass(p: Plan, n: nat): Tally
    requires n <= |p.visible|
  {
    if n == 0 then OrphanPass(p, |p.orphans|)
    else AdoptStep(p, AdoptPass(p, n - 1), p.visible[n - 1])
  }

  /** The rows after a whole sweep. */
  function Swept(p: Plan): Rows {
    ReleaseAll(AdoptPass(p, |p.visible|).rows)
  }

  // ------------------------------------------------------------------- the raise

  /** The symptom `correlate` presents: the caller's category and metric, or the row's category when none came. */
  function Presented(g: Topology, rows: Rows, id: AlarmId, category: Option<string>, metric: Option<string>): Record
    requires id in rows
  {
    var a := rows[id];
    var category' := if category.None? && Cools(TierOf(g, a.device)) then a.category else category;
    Record(id, a.device, a.alarmType, a.instance, category', metric, a.severity, a.firstSeen, false)
  }

  /** The candidates `correlate` fetches: those on the symptom's ancestors only. */
  ghost predicate ListsNear(g: Topology, rows: Rows, now: Time, d: DeviceId, near: seq<Record>) {
    && DistinctIds(near)
    && (forall r :: r in near ==>
          r.id in rows && r == RecordOf(r.id, rows[r.id], rows[r.id].cleared) && r.device in Ancestry(g, d) &&
          (OpenVisible(rows[r.id]) || RecentRoot(rows[r.id], now)))
    && (forall id ::
          id in rows && (OpenVisible(rows[id]) || RecentRoot(rows[id], now)) && rows[id].device in Ancestry(g, d) ==>
          RecordOf(id, rows[id], rows[id].cleared) in near)
  }

  /** The rows after `correlate` on an alarm, and the verdict it returns. */
  ghost predicate Correlated(
    g: Topology, rooms: Rooms, now: Time, rows: Rows, id: AlarmId, category: Option<string>, metric: Option<string>,
    rows': Rows, verdict: Option<Root>)
  {
    && id in rows
    && var sym := Presented(g, rows, id, category, metric);
    && rows' == (if verdict.None? then rows else rows[id := Marked(rows[id], verdict.value, now)])
    && if !MightTakePart(sym.alarmType, category, metric) then verdict == None
       else exists near, reps ::
         && ListsNear(g, rows, now, sym.device, near) && IsRepresentatives(rows, rooms, reps)
         && verdict == Verdict(g, FireRooms(rows, rooms), sym, near, reps)
  }
}
