/**
 `correlate` and `sweep` as they run: methods over a table object whose rows they rewrite
 one UPDATE at a time, proved against the functions of `AlarmTable`.
 */
module CoolingSweeps {
  import opened Wrappers
  import opened CoolingTaxonomy
  import opened CoolingGraphs
  import opened RootChoice
  import opened AlarmTable

  // ---------------------------------------------------------- oldest first

  function InsertByOnset(s: seq<Record>, r: Record): seq<Record> {
    if s == [] || Onset(r, s[0]) then [r] + s else [s[0]] + InsertByOnset(s[1..], r)
  }

  /** `sorted(..., key=(first_seen, id))`. */
  function OldestFirst(s: seq<Record>): seq<Record> {
    if s == [] then [] else InsertByOnset(OldestFirst(s[1..]), s[0])
  }

  ghost predicate Ordered(s: seq<Record>) {
    forall i, j :: 0 <= i < j < |s| ==> Onset(s[i], s[j])
  }

  ghost predicate FreshId(s: seq<Record>, id: AlarmId) {
    forall x :: x in s ==> x.id != id
  }

  lemma {:induction false} InsertKeepsOrder(s: seq<Record>, r: Record)
    requires Ordered(s) && FreshId(s, r.id)
    ensures Ordered(InsertByOnset(s, r))
    ensures forall x :: x in InsertByOnset(s, r) <==> x == r || x in s
  {
    if s != [] && !Onset(r, s[0]) {
      assert s == [s[0]] + s[1..];
      InsertKeepsOrder(s[1..], r);
      var t := InsertByOnset(s[1..], r);
      forall x | x in t ensures Onset(s[0], x) {
        if x != r { var i :| 0 <= i < |s[1..]| && s[1..][i] == x; assert s[i + 1] == x; } else { assert s[0] in s; }
      }
    } else if s != [] {
      forall x | x in s ensures Onset(r, x) { var i :| 0 <= i < |s| && s[i] == x; }
    }
  }

  lemma {:induction false} OldestFirstIsOrdered(s: seq<Record>)
    requires DistinctIds(s)
    ensures Ordered(OldestFirst(s))
    ensures forall x :: x in OldestFirst(s) <==> x in s
  {
    if s != [] {
      assert s == [s[0]] + s[1..];
      OldestFirstIsOrdered(s[1..]);
      forall x | x in OldestFirst(s[1..]) ensures x.id != s[0].id {
        var i :| 0 <= i < |s[1..]| && s[1..][i] == x; assert s[i + 1] == x;
      }
      InsertKeepsOrder(OldestFirst(s[1..]), s[0]);
    }
  }

  // --------------------------------------------------------------- the table

  function MarkedCleared(rows: Rows): set<AlarmId> {
    set id | id in rows && rows[id].cleared && rows[id].l5.Some?
  }

  /** `s` lists once each the rows `keep` selects among `ids`, as records. */
  ghost predicate Lists(rows: Rows, ids: set<AlarmId>, keep: Alarm -> bool, s: seq<Record>) {
    && DistinctIds(s)
    && (forall r :: r in s ==>
          r.id in ids && r.id in rows && keep(rows[r.id]) && r == RecordOf(r.id, rows[r.id], rows[r.id].cleared))
    && (forall id :: id in ids && id in rows && keep(rows[id]) ==> RecordOf(id, rows[id], rows[id].cleared) in s)
  }

  /** A SELECT: the kept rows in whatever order the database returns them. */
  method Select(rows: Rows, keep: Alarm -> bool) returns (s: seq<Record>)
    ensures Lists(rows, rows.Keys, keep, s)
  {
    s := [];
    var todo := rows.Keys;
    while todo != {}
      invariant todo <= rows.Keys
      invariant Lists(rows, rows.Keys - todo, keep, s)
      decreases todo
    {
      NonEmpty(todo);
      var id :| id in todo;
      if keep(rows[id]) {
        s := s + [RecordOf(id, rows[id], rows[id].cleared)];
      }
      todo := todo - {id};
    }
    assert rows.Keys - todo == rows.Keys;
  }

  /** `reps` files, for each key among the first `i`, the first id that carries it. */
  ghost predicate FilesFirsts(keys: seq<RepKey>, ids: seq<AlarmId>, i: nat, reps: map<RepKey, AlarmId>)
    requires i <= |keys| == |ids|
  {
    && (forall k :: k in reps ==> exists j :: IsFirst(keys, i, j, k) && ids[j] == reps[k])
    && (forall j :: 0 <= j < i ==> keys[j] in reps)
  }

  ghost predicate IsFirst(keys: seq<RepKey>, i: nat, j: int, k: RepKey)
    requires i <= |keys|
  {
    0 <= j < i && keys[j] == k && forall m :: 0 <= m < j ==> keys[m] != k
  }

  lemma FilesOneMore(keys: seq<RepKey>, ids: seq<AlarmId>, i: nat, reps: map<RepKey, AlarmId>)
    requires i < |keys| == |ids| && FilesFirsts(keys, ids, i, reps)
    ensures FilesFirsts(keys, ids, i + 1, SetDefault(reps, keys[i], ids[i]))
  {
    var reps' := SetDefault(reps, keys[i], ids[i]);
    forall k | k in reps'
      ensures exists j :: IsFirst(keys, i + 1, j, k) && ids[j] == reps'[k]
    {
      if k in reps {
        var j :| IsFirst(keys, i, j, k) && ids[j] == reps[k];
        assert IsFirst(keys, i + 1, j, k);
      } else {
        assert IsFirst(keys, i + 1, i, k);
      }
    }
  }

  /** `s` lists the voices on known devices, all of them. */
  ghost predicate ListsVoices(rows: Rows, rooms: Rooms, s: seq<Record>) {
    && (forall i :: 0 <= i < |s| ==>
          s[i].id in rows && Voice(rows[s[i].id]) && rows[s[i].id].device in rooms &&
            s[i].firstSeen == rows[s[i].id].firstSeen)
    && (forall y :: y in rows && Voice(rows[y]) && rows[y].device in rooms ==> y in IdsOf(s))
  }

  function IdsOf(s: seq<Record>): seq<AlarmId> {
    seq(|s|, i requires 0 <= i < |s| => s[i].id)
  }

  ghost function KeysOf(rows: Rows, rooms: Rooms, s: seq<Record>): seq<RepKey>
    requires ListsVoices(rows, rooms, s)
  {
    seq(|s|, i requires 0 <= i < |s| => VoiceKey(rows[s[i].id], rooms))
  }

  /** Filing the voices oldest first names, for each key, one no later than any other. */
  lemma FirstsAreRepresentatives(rows: Rows, rooms: Rooms, s: seq<Record>, reps: map<RepKey, AlarmId>)
    requires Ordered(s) && ListsVoices(rows, rooms, s)
    requires FilesFirsts(KeysOf(rows, rooms, s), IdsOf(s), |s|, reps)
    ensures IsRepresentatives(rows, rooms, reps)
  {
    var keys, ids := KeysOf(rows, rooms, s), IdsOf(s);
    forall k | k in reps
      ensures reps[k] in rows && Voice(rows[reps[k]]) && rows[reps[k]].device in rooms &&
          VoiceKey(rows[reps[k]], rooms) == k
      ensures forall y :: y in rows && Voice(rows[y]) && rows[y].device in rooms && VoiceKey(rows[y], rooms) == k ==>
                rows[reps[k]].firstSeen <= rows[y].firstSeen
    {
      var j :| IsFirst(keys, |s|, j, k) && ids[j] == reps[k];
      assert keys[j] == VoiceKey(rows[s[j].id], rooms);
      forall y | y in rows && Voice(rows[y]) && rows[y].device in rooms && VoiceKey(rows[y], rooms) == k
        ensures rows[reps[k]].firstSeen <= rows[y].firstSeen
      {
        var i :| 0 <= i < |ids| && ids[i] == y;
        assert keys[i] == k;
        assert i == j || Onset(s[j], s[i]);
      }
    }
    forall y | y in rows && Voice(rows[y]) && rows[y].device in rooms
      ensures VoiceKey(rows[y], rooms) in reps
    {
      var i :| 0 <= i < |ids| && ids[i] == y;
      assert keys[i] in reps;
    }
  }

  lemma VoicesAreListed(rows: Rows, rooms: Rooms, voices: seq<Record>, s: seq<Record>)
    requires Lists(rows, rows.Keys, (a: Alarm) => Voice(a) && a.device in rooms, voices)
    requires forall x :: x in s <==> x in voices
    ensures ListsVoices(rows, rooms, s)
  {
    forall y | y in rows && Voice(rows[y]) && rows[y].device in rooms
      ensures y in IdsOf(s)
    {
      assert RecordOf(y, rows[y], rows[y].cleared) in s;
      var i :| 0 <= i < |s| && s[i] == RecordOf(y, rows[y], rows[y].cleared);
      assert IdsOf(s)[i] == y;
    }
    forall i | 0 <= i < |s|
      ensures s[i].id in rows && Voice(rows[s[i].id]) && rows[s[i].id].device in rooms &&
          s[i].firstSeen == rows[s[i].id].firstSeen
    {
      assert s[i] in voices;
    }
  }

  class AlarmDb {
    var rows: Rows
    const rooms: Rooms

    constructor (rows: Rows, rooms: Rooms)
      ensures this.rows == rows && this.rooms == rooms
    {
      this.rows, this.rooms := rows, rooms;
    }

    /** `mark`: one UPDATE by id. */
    method MarkRow(id: AlarmId, root: Root, now: Time)
      modifies this`rows
      ensures rows == WriteMark(old(rows), id, root, now)
    {
      if id in rows {
        var a := rows[id];
        rows := rows[id := a.(
          isSymptom := a.isSymptom || root.suppress,
          rootCause := if root.suppress then Some(root.record.id) else a.rootCause,
          l5 := Some(Mark(root.record.id, root.tier, root.suppress, now)))];
      }
    }

    /** The first UPDATE of the orphan loop. */
    method UnfoldRow(id: AlarmId)
      modifies this`rows
      ensures rows == WriteUnfold(old(rows), id)
    {
      if id in rows {
        var a := rows[id];
        rows := rows[id := a.(isSymptom := false, rootCause := None,
                              l5 := if a.l5.Some? then Some(a.l5.value.(suppressed := false)) else None)];
      }
    }

    /** The second UPDATE of the orphan loop, before the row is marked again. */
    method ClearFold(id: AlarmId)
      modifies this`rows
      ensures rows == WriteClearFold(old(rows), id)
    {
      if id in rows {
        rows := rows[id := rows[id].(isSymptom := false, rootCause := None)];
      }
    }

    /** `representatives`: the voices oldest first, the first of a key kept. */
    method Representatives() returns (reps: map<RepKey, AlarmId>)
      ensures IsRepresentatives(rows, rooms, reps)
    {
      var voices := Select(rows, (a: Alarm) => Voice(a) && a.device in rooms);
      OldestFirstIsOrdered(voices);
      var s := OldestFirst(voices);
      VoicesAreListed(rows, rooms, voices, s);
      reps := map[];
      for i := 0 to |s|
        invariant FilesFirsts(KeysOf(rows, rooms, s), IdsOf(s), i, reps)
      {
        FilesOneMore(KeysOf(rows, rooms, s), IdsOf(s), i, reps);
        reps := SetDefault(reps, VoiceKey(rows[s[i].id], rooms), s[i].id);
      }
      FirstsAreRepresentatives(rows, rooms, s, reps);
    }

    /** `fire_rooms`. */
    method BurningRooms() returns (fires: set<RoomId>)
      ensures fires == FireRooms(rows, rooms)
    {
      fires := set id | id in rows && !rows[id].cleared && rows[id].category == Some("fire") &&
                        rows[id].device in rooms && rooms[rows[id].device].Some? :: rooms[rows[id].device].value;
    }

    /** The join of the tied open alarms with their roots' rows. */
    method SelectOrphans() returns (orphans: seq<Orphan>)
      ensures ListsOrphans(rows, orphans)
    {
      orphans := [];
      var todo := rows.Keys;
      while todo != {}
        invariant todo <= rows.Keys
        invariant forall i :: 0 <= i < |orphans| ==>
                    var o := orphans[i];
                    o.record.id !in todo && Orphaned(rows, o.record.id) &&
                      o.record == RecordOf(o.record.id, rows[o.record.id], false) &&
                    o.oldRoot == rows[o.record.id].l5.value.root
        invariant forall id :: id !in todo && Orphaned(rows, id) ==>
            exists i :: 0 <= i < |orphans| && orphans[i].record.id == id
        invariant forall i, j :: 0 <= i < j < |orphans| ==> orphans[i].record.id != orphans[j].record.id
        decreases todo
      {
        NonEmpty(todo);
        var id :| id in todo;
        if Orphaned(rows, id) {
          ghost var before := orphans;
          orphans := orphans + [Orphan(RecordOf(id, rows[id], false), rows[id].l5.value.root)];
          assert orphans[|before|].record.id == id;
          assert forall i :: 0 <= i < |before| ==> orphans[i] == before[i];
        }
        todo := todo - {id};
      }
    }

    /** The snapshots of `sweep`, taken before either loop writes anything. */
    method Snapshot(graph: CoolingGraph, now: Time) returns (p: Plan)
      requires graph.Valid()
      ensures FairPlan(p) && p.g == graph.Drawn() && p.rooms == rooms && p.now == now && p.rows == rows
    {
      var open := Select(rows, (a: Alarm) => OpenVisible(a));
      var recent := Select(rows, (a: Alarm) => RecentRoot(a, now));
      OldestFirstIsOrdered(open);
      var visible := OldestFirst(open);
      var fires := BurningRooms();
      var reps := Representatives();
      var orphans := SelectOrphans();
      VisibleIsListed(rows, open, visible);
      CandidatesAreListed(rows, now, open, recent);
      p := Plan(Topology(graph.nodes, graph.coolingNbrs, graph.coolingUp, graph.feeders, graph.roomUnits,
        graph.sitePlant),
                rooms, now, rows, visible, open + recent, fires, reps, orphans);
    }

    /** One turn of the loop over the orphaned: tied to the new root, or one of a kind in its room back in view. */
    method MoveOrSpeak(graph: CoolingGraph, p: Plan, o: Orphan, root: Option<Root>, reps: map<RepKey, AlarmId>,
        ghost t: Tally)
      returns (reps': map<RepKey, AlarmId>, moved: nat, spoken: nat)
      requires p.g == graph.Drawn() && rows == t.rows && reps == t.reps
      modifies this`rows
      ensures var t' := OrphanTurn(p, t, o, root);
              rows == t'.rows && reps' == t'.reps && t.moved + moved == t'.moved && t.spoken + spoken == t'.spoken
    {
      var a := o.record;
      reps', moved, spoken := reps, 0, 0;
      var room := if a.device in graph.nodes then graph.nodes[a.device].room else None;
      if root.None? || root.value.record.id == o.oldRoot {
        var key := RepKey(o.oldRoot, room, a.alarmType);
        if key !in reps {
          reps' := reps[key := a.id];
          UnfoldRow(a.id);
          spoken := 1;
        }
        return;
      }
      if root.value.representative {
        reps' := SetDefault(reps, RepKey(root.value.record.id, room, a.alarmType), a.id);
      }
      ClearFold(a.id);
      MarkRow(a.id, root.value, p.now);
      moved := 1;
    }

    /** The loop over the orphaned. */
    method MoveOrphans(graph: CoolingGraph, p: Plan) returns (reps: map<RepKey, AlarmId>, moved: nat, spoken: nat)
      requires graph.Valid() && p.g == graph.Drawn() && rows == p.rows
      modifies this`rows, graph`memo
      ensures graph.Valid() && graph.Drawn() == old(graph.Drawn())
      ensures var t := OrphanPass(p, |p.orphans|);
          rows == t.rows && reps == t.reps && moved == t.moved && spoken == t.spoken
    {
      reps, moved, spoken := p.reps, 0, 0;
      ghost var t := OrphanPass(p, 0);
      for i := 0 to |p.orphans|
        invariant graph.Valid() && graph.Drawn() == p.g
        invariant t == OrphanPass(p, i)
        invariant rows == t.rows && reps == t.reps && moved == t.moved && spoken == t.spoken
      {
        var o := p.orphans[i];
        var root := PickRoot(graph, o.record, p.candidates, p.fires, reps);
        assert root == Judge(p, o.record, t.reps);
        var m, s;
        reps, m, s := MoveOrSpeak(graph, p, o, root, reps, t);
        moved, spoken := moved + m, spoken + s;
        t := OrphanTurn(p, t, o, root);
      }
    }

    /** One turn of the loop over the visible: the late root adopts, and the one that speaks stays in view. */
    method AdoptOne(
      graph: CoolingGraph, p: Plan, a: Record, root: Root, reps: map<RepKey, AlarmId>, tied: set<AlarmId>,
        ghost t: Tally)
      returns (reps': map<RepKey, AlarmId>, tied': set<AlarmId>, adopted: nat)
      requires p.g == graph.Drawn() && a.device in graph.nodes && rows == t.rows && reps == t.reps && tied == t.tied
      modifies this`rows
      ensures var t' := AdoptTurn(p, t, a, Some(root));
              rows == t'.rows && reps' == t'.reps && tied' == t'.tied && t.adopted + adopted == t'.adopted
    {
      reps', tied', adopted := reps, tied, 0;
      if root.representative {
        reps' := SetDefault(reps, RepKey(root.record.id, graph.nodes[a.device].room, a.alarmType), a.id);
        if a.id in tied { return; }
      }
      MarkRow(a.id, root, p.now);
      tied' := tied + {a.id};
      adopted := 1;
    }

    /** A turn of the loop from its tests on: the old, the unknown and what is nobody's consequence are passed by. */
    method OfferRoot(
      graph: CoolingGraph, p: Plan, a: Record, reps: map<RepKey, AlarmId>, tied: set<AlarmId>, ghost t: Tally)
      returns (reps': map<RepKey, AlarmId>, tied': set<AlarmId>, adopted: nat)
      requires graph.Valid() && p.g == graph.Drawn() && rows == t.rows && reps == t.reps && tied == t.tied
      modifies this`rows, graph`memo
      ensures graph.Valid() && graph.Drawn() == old(graph.Drawn())
      ensures var t' := if Skipped(p, a) then t else AdoptTurn(p, t, a, Judge(p, a, t.reps));
              rows == t'.rows && reps' == t'.reps && tied' == t'.tied && t.adopted + adopted == t'.adopted
    {
      SkippedExactly(p, a);
      hide Verdict, Skipped, SymptomEligible, WellDrawn, Ancestry;
      reps', tied', adopted := reps, tied, 0;
      if a.firstSeen < p.now - 2 * LAG { return; }
      if a.device !in graph.nodes ||
         !SymptomEligible(a.alarmType, a.category, DeviceTier(graph.nodes[a.device].deviceType), a.metric) { return; }
      var root := PickRoot(graph, a, p.candidates, p.fires, reps);
      assert root == Judge(p, a, t.reps);
      if root.None? { return; }
      reps', tied', adopted := AdoptOne(graph, p, a, root.value, reps, tied, t);
    }

    /** The loop over the visible, oldest first. */
    method Adopt(graph: CoolingGraph, p: Plan, reps0: map<RepKey, AlarmId>) returns (adopted: nat)
      requires graph.Valid() && p.g == graph.Drawn()
      requires rows == OrphanPass(p, |p.orphans|).rows && reps0 == OrphanPass(p, |p.orphans|).reps
      modifies this`rows, graph`memo
      ensures graph.Valid() && graph.Drawn() == old(graph.Drawn())
      ensures var t := AdoptPass(p, |p.visible|); rows == t.rows && adopted == t.adopted
    {
      TiedIsUntouched(p, |p.orphans|);
      AdoptPassBegins(p);
      hide AdoptTurn, AdoptPass, OrphanPass, Skipped, Judge, WellDrawn, Ancestry;
      var reps, tied := reps0, p.reps.Values;
      adopted := 0;
      for i := 0 to |p.visible|
        invariant graph.Valid() && graph.Drawn() == p.g
        invariant var t := AdoptPass(p, i); rows == t.rows && reps == t.reps && tied == t.tied && adopted == t.adopted
      {
        AdoptPassSteps(p, i, AdoptPass(p, i));
        var n;
        reps, tied, n := OfferRoot(graph, p, p.visible[i], reps, tied, AdoptPass(p, i));
        adopted := adopted + n;
      }
    }

    /** The closing UPDATE, and how many rows it returns. */
    method Release() returns (released: nat)
      modifies this`rows
      ensures rows == ReleaseAll(old(rows))
      ensures released == |MarkedCleared(old(rows))|
    {
      var gone := MarkedCleared(rows);
      ghost var before := rows;
      rows := map id | id in rows ::
        if id in gone then
          rows[id].(isSymptom := if rows[id].l5.value.suppressed then false else rows[id].isSymptom,
                    rootCause := if rows[id].l5.value.suppressed then None else rows[id].rootCause,
                    l5 := None)
        else rows[id];
      forall id | id in before ensures rows[id] == Released(before[id]) {}
      assert rows == ReleaseAll(before);
      released := |gone|;
    }

    /**
     `sweep`: from the snapshots it takes itself, the two loops and the closing UPDATE leave exactly
     the rows the functions give; `plan` is the witness of what the queries returned.
     */
    method Sweep(graph: CoolingGraph, now: Time)
      returns (adopted: nat, moved: nat, spoken: nat, released: nat, ghost plan: Plan)
      requires graph.Valid()
      modifies this`rows, graph`memo
      ensures graph.Valid() && graph.Drawn() == old(graph.Drawn())
      ensures FairPlan(plan) && plan.g == graph.Drawn() && plan.rooms == rooms && plan.now == now &&
          plan.rows == old(rows)
      ensures rows == Swept(plan)
      ensures var t := AdoptPass(plan, |plan.visible|); adopted == t.adopted && moved == t.moved && spoken == t.spoken
      ensures released == |set id | id in old(rows) && old(rows)[id].cleared && old(rows)[id].l5.Some?|
    {
      var p := Snapshot(graph, now);
      plan := p;
      FairPlansWorkOnOpen(p);
      ClearedAreUntouched(p, |p.visible|);
      TalliesMeet(p);
      var reps;
      reps, moved, spoken := MoveOrphans(graph, p);
      adopted := Adopt(graph, p, reps);
      SameMarkedCleared(p.rows, rows);
      released := Release();
      assert MarkedCleared(p.rows) == set id | id in old(rows) && old(rows)[id].cleared && old(rows)[id].l5.Some?;
    }

    /**
     `correlate`, on the raise path. The graph is loaded and the database asked only when the name
     alone could take part.
     */
    method Correlate(graph: CoolingGraph, now: Time, id: AlarmId, category: Option<string>, metric: Option<string>)
      returns (verdict: Option<Root>)
      requires graph.Valid() && id in rows
      modifies this`rows, graph`memo
      ensures graph.Valid() && graph.Drawn() == old(graph.Drawn())
      ensures Correlated(graph.Drawn(), rooms, now, old(rows), id, category, metric, rows, verdict)
    {
      hide IsThermal, IsCoolingCondition, Verdict, WellDrawn;
      var a := rows[id];
      if !MightTakePart(a.alarmType, category, metric) { return None; }
      var tier := if a.device in graph.nodes then DeviceTier(graph.nodes[a.device].deviceType) else None;
      var category' := if category.None? && Cools(tier) then a.category else category;
      var sym := Record(id, a.device, a.alarmType, a.instance, category', metric, a.severity, a.firstSeen, false);
      assert sym == Presented(graph.Drawn(), rows, id, category, metric);
      var anc := graph.Ancestors(a.device);
      var near := Select(rows, (x: Alarm) => x.device in anc && (OpenVisible(x) || RecentRoot(x, now)));
      assert ListsNear(graph.Drawn(), rows, now, a.device, near);
      var fires := BurningRooms();
      var reps := Representatives();
      verdict := PickRoot(graph, sym, near, fires, reps);
      ghost var before := rows;
      if verdict.Some? { MarkRow(id, verdict.value, now); }
      assert ListsNear(graph.Drawn(), before, now, sym.device, near) && IsRepresentatives(before, rooms, reps);
    }
  }

  lemma AdoptPassBegins(p: Plan)
    ensures AdoptPass(p, 0) == OrphanPass(p, |p.orphans|)
  {
  }

  lemma AdoptPassSteps(p: Plan, i: nat, t: Tally)
    requires i < |p.visible| && t == AdoptPass(p, i)
    ensures var a := p.visible[i];
            AdoptPass(p, i + 1) == if Skipped(p, a) then t else AdoptTurn(p, t, a, Judge(p, a, t.reps))
  {
  }

  lemma SkippedExactly(p: Plan, a: Record)
    ensures Skipped(p, a) <==>
              a.firstSeen < p.now - 2 * LAG || a.device !in p.g.nodes ||
              !SymptomEligible(a.alarmType, a.category, DeviceTier(p.g.nodes[a.device].deviceType), a.metric)
  {
  }

  lemma VisibleIsListed(rows: Rows, open: seq<Record>, visible: seq<Record>)
    requires Lists(rows, rows.Keys, (a: Alarm) => OpenVisible(a), open)
    requires Ordered(visible) && forall x :: x in visible <==> x in open
    ensures ListsVisible(rows, visible)
  {
  }

  lemma CandidatesAreListed(rows: Rows, now: Time, open: seq<Record>, recent: seq<Record>)
    requires Lists(rows, rows.Keys, (a: Alarm) => OpenVisible(a), open)
    requires Lists(rows, rows.Keys, (a: Alarm) => RecentRoot(a, now), recent)
    ensures ListsCandidates(rows, now, open + recent)
  {
    var all := open + recent;
    forall i, j | 0 <= i < j < |all| ensures all[i].id != all[j].id {
      if i < |open| <= j { assert all[i] in open && all[j] in recent; }
    }
  }

  /** The first loop adds nothing to `tied` and nothing to `adopted`. */
  lemma {:induction false} TiedIsUntouched(p: Plan, n: nat)
    requires n <= |p.orphans|
    ensures OrphanPass(p, n).tied == p.reps.Values && OrphanPass(p, n).adopted == 0
  {
    hide Judge;
    if n > 0 { TiedIsUntouched(p, n - 1); }
  }

  /** The second loop moves nothing and speaks for nothing: those counters are the first loop's. */
  lemma TalliesMeet(p: Plan)
    ensures var t, u := OrphanPass(p, |p.orphans|), AdoptPass(p, |p.visible|);
        t.moved == u.moved && t.spoken == u.spoken
  {
    CountersStand(p, |p.visible|);
  }

  lemma {:induction false} CountersStand(p: Plan, n: nat)
    requires n <= |p.visible|
    ensures var t, u := OrphanPass(p, |p.orphans|), AdoptPass(p, n); t.moved == u.moved && t.spoken == u.spoken
  {
    hide Judge, OrphanPass;
    if n > 0 { CountersStand(p, n - 1); }
  }

  /** The two loops are handed open alarms only. */
  ghost predicate WorksOnOpen(p: Plan) {
    && (forall i :: 0 <= i < |p.orphans| ==>
        p.orphans[i].record.id in p.rows && !p.rows[p.orphans[i].record.id].cleared)
    && (forall i :: 0 <= i < |p.visible| ==> p.visible[i].id in p.rows && !p.rows[p.visible[i].id].cleared)
  }

  lemma FairPlansWorkOnOpen(p: Plan)
    requires FairPlan(p)
    ensures WorksOnOpen(p)
  {
    forall i | 0 <= i < |p.visible| ensures p.visible[i].id in p.rows && !p.rows[p.visible[i].id].cleared {
      assert p.visible[i] in p.visible;
    }
  }

  /** Neither loop writes a cleared row, or the open and cleared state of any, or adds or drops a row. */
  ghost predicate ClearedStand(rows: Rows, rows': Rows) {
    && rows'.Keys == rows.Keys
    && forall id :: id in rows ==> rows'[id].cleared == rows[id].cleared && (rows[id].cleared ==> rows'[id] == rows[id])
  }

  lemma SameMarkedCleared(rows: Rows, rows': Rows)
    requires ClearedStand(rows, rows')
    ensures MarkedCleared(rows') == MarkedCleared(rows)
  {
    assert forall id :: id in MarkedCleared(rows') <==> id in MarkedCleared(rows);
  }

  lemma {:induction false} ClearedAreUntouched(p: Plan, n: nat)
    requires WorksOnOpen(p) && n <= |p.visible|
    ensures ClearedStand(p.rows, AdoptPass(p, n).rows)
  {
    hide Judge, AdoptTurn;
    if n == 0 {
      ClearedAreUntouchedFirst(p, |p.orphans|);
    } else {
      ClearedAreUntouched(p, n - 1);
      var t, a := AdoptPass(p, n - 1), p.visible[n - 1];
      AdoptWritesOneRow(p, t, a, Judge(p, a, t.reps));
    }
  }

  lemma {:induction false} ClearedAreUntouchedFirst(p: Plan, n: nat)
    requires WorksOnOpen(p) && n <= |p.orphans|
    ensures ClearedStand(p.rows, OrphanPass(p, n).rows)
  {
    hide Judge, OrphanTurn;
    if n > 0 {
      ClearedAreUntouchedFirst(p, n - 1);
      var t, o := OrphanPass(p, n - 1), p.orphans[n - 1];
      OrphanWritesOneRow(p, t, o, Judge(p, o.record, t.reps));
    }
  }

  /** Only the row `id` differs, and there only in what marks write. */
  ghost predicate WritesOnly(rows: Rows, rows': Rows, id: AlarmId) {
    && rows'.Keys == rows.Keys
    && (forall x :: x in rows && x != id ==> rows'[x] == rows[x])
    && (id in rows ==> rows'[id] == rows[id].(isSymptom := rows'[id].isSymptom, rootCause := rows'[id].rootCause,
        l5 := rows'[id].l5))
  }

  lemma OrphanWritesOneRow(p: Plan, t: Tally, o: Orphan, verdict: Option<Root>)
    ensures WritesOnly(t.rows, OrphanTurn(p, t, o, verdict).rows, o.record.id)
  {
  }

  lemma AdoptWritesOneRow(p: Plan, t: Tally, a: Record, verdict: Option<Root>)
    ensures WritesOnly(t.rows, AdoptTurn(p, t, a, verdict).rows, a.id)
  {
  }
}
