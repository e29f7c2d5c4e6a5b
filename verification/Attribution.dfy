/**
 What every run keeps: raising, clearing, `correlate` and `sweep` in any order, on one graph.

 `Inv` says each mark points at a row that was eligible to explain it. From it: the marks form
 no cycle outside the plant tier, every chain of roots ends when the plant is not drawn in a
 circle, blame drifts a bounded time, and an open alarm's mark is never dropped.
 */
module Attribution {
  import opened Wrappers
  import opened CoolingTaxonomy
  import opened CoolingGraphs
  import opened RootChoice
  import opened AlarmTable
  import opened CoolingSweeps

  // ------------------------------------------------------------- the invariant

  /**
   What a mark was allowed by: the root stands upstream at that tier, inside the window, and the marked
   alarm is no trip.
   */
  ghost predicate LinkOk(g: Topology, s: Alarm, r: Alarm, tier: Tier) {
    && r.device in Ancestry(g, s.device) && Ancestry(g, s.device)[r.device] == tier
    && InWindow(r.firstSeen, s.firstSeen)
    && !PowerTrip(s.alarmType, s.instance)
    && (tier == Power ==> PowerTrip(r.alarmType, r.instance))
  }

  ghost predicate Linked(g: Topology, rows: Rows, id: AlarmId)
    requires id in rows
  {
    rows[id].l5.Some? ==>
      var m := rows[id].l5.value;
      m.root in rows && LinkOk(g, rows[id], rows[m.root], m.tier)
  }

  ghost predicate Folded(a: Alarm) {
    a.l5.Some? && a.l5.value.suppressed ==> a.isSymptom && a.rootCause == Some(a.l5.value.root)
  }

  ghost predicate Inv(g: Topology, rows: Rows) {
    forall id :: id in rows ==> Linked(g, rows, id) && Folded(rows[id])
  }

  /** No power trip carries a cooling category or a thermal metric. */
  ghost predicate Quiet(rows: Rows) {
    forall id :: id in rows ==> PlainTrip(rows[id].alarmType, rows[id].instance, rows[id].category, rows[id].metric)
  }

  // ------------------------------------------------------------------ the steps

  /** The fields an alarm keeps for life. */
  predicate SameIdentity(a: Alarm, b: Alarm) {
    a.device == b.device && a.alarmType == b.alarmType && a.instance == b.instance &&
    a.category == b.category && a.firstSeen == b.firstSeen
  }

  /**
   Everything else that may happen to the table: alarms are raised without a mark, escalated,
   shelved, folded or released by another correlator, and cleared for good. The cooling marks,
   and what they fold, are left alone.
   */
  ghost predicate EnvStep(rows: Rows, rows': Rows) {
    && Quiet(rows')
    && (forall id :: id in rows ==>
          && id in rows' && SameIdentity(rows[id], rows'[id]) && rows'[id].l5 == rows[id].l5
          && (rows[id].cleared ==> rows'[id].cleared)
          && (rows[id].l5.Some? && rows[id].l5.value.suppressed ==>
                rows'[id].isSymptom == rows[id].isSymptom && rows'[id].rootCause == rows[id].rootCause))
    && (forall id :: id in rows' && id !in rows ==> rows'[id].l5 == None)
  }

  ghost predicate CorrelateStep(g: Topology, rooms: Rooms, rows: Rows, rows': Rows) {
    exists now, id, category, metric, verdict ::
      && Correlated(g, rooms, now, rows, id, category, metric, rows', verdict)
      && PlainTrip(rows[id].alarmType, rows[id].instance, category, metric)
  }

  ghost predicate SweepStep(g: Topology, rooms: Rooms, rows: Rows, rows': Rows) {
    exists p :: FairPlan(p) && p.g == g && p.rooms == rooms && p.rows == rows && rows' == Swept(p)
  }

  ghost predicate Next(g: Topology, rooms: Rooms, rows: Rows, rows': Rows) {
    EnvStep(rows, rows') || CorrelateStep(g, rooms, rows, rows') || SweepStep(g, rooms, rows, rows')
  }

  /** A history of the table from empty, one step at a time, over one drawn graph. */
  ghost predicate Run(g: Topology, rooms: Rooms, trace: seq<Rows>) {
    && WellDrawn(g)
    && |trace| > 0 && trace[0] == map[]
    && forall i :: 0 <= i < |trace| - 1 ==> Next(g, rooms, trace[i], trace[i + 1])
  }

  // ------------------------------------------------------ the steps keep the invariant

  /** A verdict on a row's own record, over candidates that are rows, is a sound link. */
  lemma VerdictLinks(g: Topology, rows: Rows, fires: set<RoomId>, sym: Record, open: seq<Record>,
      reps: map<RepKey, AlarmId>)
    requires WellDrawn(g) && Verdict(g, fires, sym, open, reps).Some?
    requires sym.id in rows && sym.device == rows[sym.id].device && sym.alarmType == rows[sym.id].alarmType
    requires sym.instance == rows[sym.id].instance && sym.firstSeen == rows[sym.id].firstSeen
    requires PlainTrip(sym.alarmType, sym.instance, sym.category, sym.metric)
    requires forall r :: r in open ==> r.id in rows && r == RecordOf(r.id, rows[r.id], r.cleared)
    ensures var v := Verdict(g, fires, sym, open, reps).value;
            v.record.id in rows && LinkOk(g, rows[sym.id], rows[v.record.id], v.tier)
  {
    var v := Verdict(g, fires, sym, open, reps).value;
    assert v.record in open && Explains(g, Ancestry(g, sym.device), fires, sym, v.record);
    if PowerTrip(sym.alarmType, sym.instance) {
      PlainTripIsNoSymptom(sym.alarmType, sym.instance, sym.category, sym.metric, TierOf(g, sym.device));
      assert false;
    }
  }

  /** Rows that differ in nothing a link depends on. */
  ghost predicate SameAlarms(rows: Rows, rows': Rows) {
    rows'.Keys == rows.Keys && forall id :: id in rows ==>
      SameIdentity(rows[id], rows'[id]) && rows'[id].metric == rows[id].metric
  }

  lemma LinkStays(g: Topology, s: Alarm, r: Alarm, s': Alarm, r': Alarm, tier: Tier)
    requires LinkOk(g, s, r, tier) && SameIdentity(s, s') && SameIdentity(r, r')
    ensures LinkOk(g, s', r', tier)
  {
  }

  /** Re-marking one row with a sound link, whatever its fold was, keeps the invariant. */
  lemma MarkKeepsInv(g: Topology, rows: Rows, rows': Rows, id: AlarmId, root: Root, now: Time)
    requires id in rows && root.record.id in rows && LinkOk(g, rows[id], rows[root.record.id], root.tier)
    requires Inv(g, rows)
    requires rows' == WriteMark(rows, id, root, now) || rows' == WriteMark(WriteClearFold(rows, id), id, root, now)
    ensures Inv(g, rows') && SameAlarms(rows, rows')
  {
    hide LinkOk;
    forall x | x in rows'
      ensures Linked(g, rows', x) && Folded(rows'[x])
    {
      assert Linked(g, rows, x) && Folded(rows[x]);
      if rows'[x].l5.Some? {
        var m := rows'[x].l5.value;
        LinkStays(g, rows[x], rows[m.root], rows'[x], rows'[m.root], m.tier);
      }
    }
  }

  lemma UnfoldKeepsInv(g: Topology, rows: Rows, id: AlarmId)
    requires Inv(g, rows)
    ensures Inv(g, WriteUnfold(rows, id)) && SameAlarms(rows, WriteUnfold(rows, id))
  {
    var rows' := WriteUnfold(rows, id);
    forall x | x in rows'
      ensures Linked(g, rows', x) && Folded(rows'[x])
    {
      assert Linked(g, rows, x) && Folded(rows[x]);
    }
  }

  /** A record of a starting row, judged by a plan, links soundly on any rows with the same alarms. */
  lemma JudgeLinks(p: Plan, rows: Rows, sym: Record, reps: map<RepKey, AlarmId>)
    requires WellDrawn(p.g) && ListsCandidates(p.rows, p.now, p.candidates) && Quiet(p.rows) && SameAlarms(p.rows, rows)
    requires sym.id in p.rows && sym == RecordOf(sym.id, p.rows[sym.id], false)
    requires Judge(p, sym, reps).Some?
    ensures var v := Judge(p, sym, reps).value;
            v.record.id in rows && LinkOk(p.g, rows[sym.id], rows[v.record.id], v.tier)
  {
    VerdictLinks(p.g, p.rows, p.fires, sym, p.candidates, reps);
  }

  lemma SameAlarmsTwice(a: Rows, b: Rows, c: Rows)
    requires SameAlarms(a, b) && SameAlarms(b, c)
    ensures SameAlarms(a, c)
  {
  }

  lemma OrphanTurnKeepsInv(p: Plan, t: Tally, o: Orphan, verdict: Option<Root>, t': Tally)
    requires WellDrawn(p.g) && ListsCandidates(p.rows, p.now, p.candidates) && Quiet(p.rows)
    requires o.record.id in p.rows && o.record == RecordOf(o.record.id, p.rows[o.record.id], false)
    requires Inv(p.g, t.rows) && SameAlarms(p.rows, t.rows) && verdict == Judge(p, o.record, t.reps)
    requires t' == OrphanTurn(p, t, o, verdict)
    ensures Inv(p.g, t'.rows) && SameAlarms(p.rows, t'.rows)
  {
    hide Judge, WriteMark, WriteUnfold, WriteClearFold, LinkOk, Inv;
    if verdict.None? || verdict.value.record.id == o.oldRoot {
      UnfoldKeepsInv(p.g, t.rows, o.record.id);
      SameAlarmsTwice(p.rows, t.rows, WriteUnfold(t.rows, o.record.id));
    } else {
      JudgeLinks(p, t.rows, o.record, t.reps);
      MarkKeepsInv(p.g, t.rows, t'.rows, o.record.id, verdict.value, p.now);
      SameAlarmsTwice(p.rows, t.rows, t'.rows);
    }
  }

  lemma {:induction false} OrphanPassKeepsInv(p: Plan, n: nat)
    requires WellDrawn(p.g) && ListsCandidates(p.rows, p.now, p.candidates) && ListsOrphans(p.rows, p.orphans)
    requires n <= |p.orphans| && Quiet(p.rows) && Inv(p.g, p.rows)
    ensures Inv(p.g, OrphanPass(p, n).rows) && SameAlarms(p.rows, OrphanPass(p, n).rows)
  {
    hide Judge, OrphanTurn, Inv, WellDrawn, ListsCandidates, Quiet;
    if n > 0 {
      OrphanPassKeepsInv(p, n - 1);
      var t, o := OrphanPass(p, n - 1), p.orphans[n - 1];
      OrphanTurnKeepsInv(p, t, o, Judge(p, o.record, t.reps), OrphanPass(p, n));
    }
  }

  lemma AdoptTurnKeepsInv(p: Plan, t: Tally, a: Record, verdict: Option<Root>, t': Tally)
    requires WellDrawn(p.g) && ListsCandidates(p.rows, p.now, p.candidates) && Quiet(p.rows)
    requires a.id in p.rows && a == RecordOf(a.id, p.rows[a.id], false)
    requires Inv(p.g, t.rows) && SameAlarms(p.rows, t.rows) && verdict == Judge(p, a, t.reps)
    requires t' == AdoptTurn(p, t, a, verdict)
    ensures Inv(p.g, t'.rows) && SameAlarms(p.rows, t'.rows)
  {
    hide Judge, WriteMark, LinkOk, Inv;
    if verdict.Some? {
      var marked := WriteMark(t.rows, a.id, verdict.value, p.now);
      JudgeLinks(p, t.rows, a, t.reps);
      MarkKeepsInv(p.g, t.rows, marked, a.id, verdict.value, p.now);
      SameAlarmsTwice(p.rows, t.rows, marked);
    }
  }

  lemma {:induction false} AdoptPassKeepsInv(p: Plan, n: nat)
    requires WellDrawn(p.g) && ListsCandidates(p.rows, p.now, p.candidates) && ListsOrphans(p.rows, p.orphans)
    requires ListsVisible(p.rows, p.visible)
    requires n <= |p.visible| && Quiet(p.rows) && Inv(p.g, p.rows)
    ensures Inv(p.g, AdoptPass(p, n).rows) && SameAlarms(p.rows, AdoptPass(p, n).rows)
  {
    hide Judge, OrphanPass, AdoptTurn, Skipped, Inv, WellDrawn, ListsCandidates, ListsOrphans, Quiet;
    if n == 0 {
      OrphanPassKeepsInv(p, |p.orphans|);
    } else {
      AdoptPassKeepsInv(p, n - 1);
      var t, a := AdoptPass(p, n - 1), p.visible[n - 1];
      assert a in p.visible;
      if !Skipped(p, a) { AdoptTurnKeepsInv(p, t, a, Judge(p, a, t.reps), AdoptPass(p, n)); }
    }
  }

  lemma ReleaseKeepsInv(g: Topology, rows: Rows)
    requires Inv(g, rows)
    ensures Inv(g, ReleaseAll(rows)) && SameAlarms(rows, ReleaseAll(rows))
  {
    var rows' := ReleaseAll(rows);
    forall x | x in rows'
      ensures Linked(g, rows', x) && Folded(rows'[x])
    {
      assert Linked(g, rows, x) && Folded(rows[x]);
    }
  }

  lemma SweepKeepsInv(p: Plan)
    requires FairPlan(p) && Quiet(p.rows) && Inv(p.g, p.rows)
    ensures Inv(p.g, Swept(p)) && SameAlarms(p.rows, Swept(p))
  {
    AdoptPassKeepsInv(p, |p.visible|);
    ReleaseKeepsInv(p.g, AdoptPass(p, |p.visible|).rows);
  }

  lemma CorrelateKeepsInv(
    g: Topology, rooms: Rooms, now: Time, rows: Rows, id: AlarmId, category: Option<string>, metric: Option<string>,
    rows': Rows, verdict: Option<Root>)
    requires WellDrawn(g) && Quiet(rows) && Inv(g, rows)
    requires Correlated(g, rooms, now, rows, id, category, metric, rows', verdict)
    requires PlainTrip(rows[id].alarmType, rows[id].instance, category, metric)
    ensures Inv(g, rows') && SameAlarms(rows, rows')
  {
    if verdict.Some? {
      var sym := Presented(g, rows, id, category, metric);
      var near, reps :|
        && ListsNear(g, rows, now, sym.device, near) && IsRepresentatives(rows, rooms, reps)
        && verdict == Verdict(g, FireRooms(rows, rooms), sym, near, reps);
      VerdictLinks(g, rows, FireRooms(rows, rooms), sym, near, reps);
      MarkKeepsInv(g, rows, rows', id, verdict.value, now);
    }
  }

  lemma EnvKeepsInv(g: Topology, rows: Rows, rows': Rows)
    requires Inv(g, rows) && EnvStep(rows, rows')
    ensures Inv(g, rows')
  {
    forall x | x in rows'
      ensures Linked(g, rows', x) && Folded(rows'[x])
    {
      if x in rows {
        assert Linked(g, rows, x) && Folded(rows[x]);
      }
    }
  }

  /** Every step of every kind keeps the invariant. */
  lemma NextKeepsInv(g: Topology, rooms: Rooms, rows: Rows, rows': Rows)
    requires WellDrawn(g) && Quiet(rows) && Inv(g, rows) && Next(g, rooms, rows, rows')
    ensures Quiet(rows') && Inv(g, rows')
  {
    hide Inv, Swept, FairPlan, WellDrawn, Verdict, Presented, ListsNear, IsRepresentatives, MightTakePart, Marked;
    if EnvStep(rows, rows') {
      EnvKeepsInv(g, rows, rows');
    } else if CorrelateStep(g, rooms, rows, rows') {
      var now, id, category, metric, verdict :|
        && Correlated(g, rooms, now, rows, id, category, metric, rows', verdict)
        && PlainTrip(rows[id].alarmType, rows[id].instance, category, metric);
      CorrelateKeepsInv(g, rooms, now, rows, id, category, metric, rows', verdict);
    } else {
      var p :| FairPlan(p) && p.g == g && p.rooms == rooms && p.rows == rows && rows' == Swept(p);
      SweepKeepsInv(p);
    }
  }

  /** So every state of every run satisfies it: in particular a suppressing mark always folds under its own root. */
  lemma {:induction false} RunKeepsInv(g: Topology, rooms: Rooms, trace: seq<Rows>, i: nat)
    requires Run(g, rooms, trace) && i < |trace|
    ensures Quiet(trace[i]) && Inv(g, trace[i])
  {
    if i > 0 {
      RunKeepsInv(g, rooms, trace, i - 1);
      NextKeepsInv(g, rooms, trace[i - 1], trace[i]);
    }
  }
}
