/**
 Merging the alarms two detectors raised for one condition: for each alias, FOLD the open alias into
 the open canonical alarm of the same device and instance, then RENAME what is left.

 `Upgrade` is the migration as it runs, stopped and undone by a violation of the one-open-alarm index.
 The lemmas say what survives, that nothing is lost on the way, and exactly when the rename collides.
 */
module AliasMerge {
  import opened Wrappers

  type AlarmId = int
  type DeviceId = int
  type Time = int

  datatype Alarm = Alarm(
    device: Option<DeviceId>, alarmType: string, instance: string, severity: string, firstSeen: Time,
    occurrences: int, open: bool, clearedAt: Option<Time>)

  type Rows = map<AlarmId, Alarm>

  /** A row of alarm_history: the alarm cleared, with the severity it had. */
  datatype Entry = Entry(alarm: AlarmId, device: Option<DeviceId>, severity: string)

  datatype Alias = Alias(name: string, canonical: string)

  function SeverityRank(s: string): nat {
    if s == "CRITICAL" then 0 else if s == "MAJOR" then 1 else if s == "MINOR" then 2
    else if s == "WARNING" then 3 else if s == "INFO" then 4 else 5
  }

  predicate SameKey(a: Alarm, b: Alarm) {
    a.device == b.device && a.alarmType == b.alarmType && a.instance == b.instance
  }

  /** The index alarm_active_key: one open alarm a key, a missing device equal to itself. */
  ghost predicate OnePerKey(rows: Rows) {
    forall a, b :: a in rows && b in rows && rows[a].open && rows[b].open && SameKey(rows[a], rows[b]) ==> a == b
  }

  /** The join of FOLD: `t` is the open alarm of type `name` on the device and instance of the open alarm `id`. */
  predicate Twin(rows: Rows, id: AlarmId, t: AlarmId, name: string) {
    id in rows && t in rows && rows[id].open && rows[t].open && rows[t].alarmType == name &&
    rows[id].device.Some? && rows[t].device == rows[id].device && rows[t].instance == rows[id].instance
  }

  ghost predicate HasTwin(rows: Rows, id: AlarmId, name: string) {
    exists t :: Twin(rows, id, t, name)
  }

  /** The canonical row takes the worse severity, the earlier onset, and the alias's count on top of its own. */
  function Merge(canon: Alarm, alias: Alarm): Alarm {
    canon.(severity := if SeverityRank(alias.severity) < SeverityRank(canon.severity) then alias.severity
      else canon.severity,
           firstSeen := if alias.firstSeen < canon.firstSeen then alias.firstSeen else canon.firstSeen,
           occurrences := canon.occurrences + alias.occurrences)
  }

  function Closed(a: Alarm, now: Time): Alarm {
    a.(open := false, clearedAt := Some(now))
  }

  // --------------------------------------------------------------- FOLD as a value

  /** Neither a canonical row whose alias is done, nor a done alias. */
  ghost predicate NotYet(rows: Rows, al: Alias, done: set<AlarmId>, id: AlarmId)
    requires id in rows
  {
    && (forall a :: Twin(rows, id, a, al.name) && rows[id].alarmType == al.canonical ==> a !in done)
    && !(rows[id].alarmType == al.name && HasTwin(rows, id, al.canonical) && id in done)
  }

  /** A row once the aliases in `done` are folded. */
  ghost predicate RowAfter(rows: Rows, al: Alias, now: Time, done: set<AlarmId>, id: AlarmId, row: Alarm)
    requires id in rows
  {
    && (forall a :: Twin(rows, id, a, al.name) && rows[id].alarmType == al.canonical && a in done ==>
        row == Merge(rows[id], rows[a]))
    && (rows[id].alarmType == al.name && HasTwin(rows, id, al.canonical) && id in done ==> row == Closed(rows[id], now))
    && (NotYet(rows, al, done, id) ==> row == rows[id])
  }

  ghost predicate FoldedSoFar(rows: Rows, al: Alias, now: Time, done: set<AlarmId>, rows': Rows) {
    rows'.Keys == rows.Keys && forall id :: id in rows ==> RowAfter(rows, al, now, done, id, rows'[id])
  }

  /** FOLD: every pair of the snapshot merged, and nothing else touched. */
  ghost predicate Folded(rows: Rows, al: Alias, now: Time, rows': Rows) {
    FoldedSoFar(rows, al, now, rows.Keys, rows')
  }

  lemma TwinsPair(rows: Rows, al: Alias, a: AlarmId, c: AlarmId)
    requires OnePerKey(rows) && al.name != al.canonical
    requires Twin(rows, a, c, al.canonical) && rows[a].alarmType == al.name
    ensures Twin(rows, c, a, al.name)
    ensures forall x :: Twin(rows, a, x, al.canonical) ==> x == c
    ensures forall x :: Twin(rows, c, x, al.name) ==> x == a
  {
  }

  lemma FoldOneMore(rows: Rows, al: Alias, now: Time, done: set<AlarmId>, now1: Rows, a: AlarmId, c: AlarmId,
      now2: Rows)
    requires OnePerKey(rows) && al.name != al.canonical && FoldedSoFar(rows, al, now, done, now1)
    requires Twin(rows, a, c, al.canonical) && rows[a].alarmType == al.name && a !in done
    requires now2 == now1[c := Merge(now1[c], rows[a])][a := Closed(rows[a], now)]
    ensures FoldedSoFar(rows, al, now, done + {a}, now2)
  {
    TwinsPair(rows, al, a, c);
    assert RowAfter(rows, al, now, done, c, now1[c]);
    forall id | id in rows ensures RowAfter(rows, al, now, done + {a}, id, now2[id]) {
      assert RowAfter(rows, al, now, done, id, now1[id]);
    }
  }

  lemma NothingFolded(rows: Rows, al: Alias, now: Time, done: set<AlarmId>)
    requires forall a :: a !in done
    ensures FoldedSoFar(rows, al, now, done, rows) && Logged(rows, al, done, [])
  {
  }

  lemma FoldNoMore(rows: Rows, al: Alias, now: Time, done: set<AlarmId>, rows': Rows, a: AlarmId)
    requires FoldedSoFar(rows, al, now, done, rows') && a in rows
    requires rows[a].alarmType == al.name ==> !HasTwin(rows, a, al.canonical)
    ensures FoldedSoFar(rows, al, now, done + {a}, rows')
  {
    forall id | id in rows ensures RowAfter(rows, al, now, done + {a}, id, rows'[id]) {
      assert RowAfter(rows, al, now, done, id, rows'[id]);
      if Twin(rows, id, a, al.name) && rows[id].alarmType == al.canonical { assert Twin(rows, a, id, al.canonical); }
    }
  }

  function Renamed(rows: Rows, al: Alias): Rows {
    map id | id in rows ::
      if rows[id].open && rows[id].alarmType == al.name then rows[id].(alarmType := al.canonical) else rows[id]
  }

  /** The history of a fold: each merged alias once, with the severity it had. */
  ghost predicate Logged(rows: Rows, al: Alias, done: set<AlarmId>, entries: seq<Entry>) {
    && (forall i :: 0 <= i < |entries| ==>
          var a := entries[i].alarm;
          a in done && a in rows && rows[a].alarmType == al.name && HasTwin(rows, a, al.canonical) &&
          entries[i] == Entry(a, rows[a].device, rows[a].severity))
    && (forall a :: a in done && a in rows && rows[a].alarmType == al.name && HasTwin(rows, a, al.canonical) ==>
          exists i :: 0 <= i < |entries| && entries[i].alarm == a)
    && (forall i, j :: 0 <= i < j < |entries| ==> entries[i].alarm != entries[j].alarm)
  }

  lemma LogOneMore(rows: Rows, al: Alias, done: set<AlarmId>, entries: seq<Entry>, a: AlarmId)
    requires Logged(rows, al, done, entries) && a in rows && a !in done
    requires rows[a].alarmType == al.name && HasTwin(rows, a, al.canonical)
    ensures Logged(rows, al, done + {a}, entries + [Entry(a, rows[a].device, rows[a].severity)])
  {
    var more := entries + [Entry(a, rows[a].device, rows[a].severity)];
    assert more[|entries|].alarm == a;
    forall x | x in done + {a} && x in rows && rows[x].alarmType == al.name && HasTwin(rows, x, al.canonical)
      ensures exists i :: 0 <= i < |more| && more[i].alarm == x
    {
      if x != a {
        var i :| 0 <= i < |entries| && entries[i].alarm == x;
        assert more[i].alarm == x;
      }
    }
  }

  /** An open alias row and an open canonical row with no device and one instance: the join misses them. */
  ghost predicate DevicelessPair(rows: Rows, al: Alias, a: AlarmId, c: AlarmId) {
    a in rows && c in rows && rows[a].open && rows[c].open && rows[a].alarmType == al.name &&
      rows[c].alarmType == al.canonical &&
    rows[a].device == None && rows[c].device == None && rows[a].instance == rows[c].instance
  }

  ghost predicate DevicelessTwins(rows: Rows, al: Alias) {
    exists a, c :: DevicelessPair(rows, al, a, c)
  }

  /** The row would take a key another open row already has. */
  predicate Collides(rows: Rows, al: Alias, a: AlarmId, c: AlarmId) {
    a in rows && c in rows && rows[a].open && rows[c].open && rows[a].alarmType == al.name &&
      rows[c].alarmType == al.canonical &&
    rows[a].device == rows[c].device && rows[a].instance == rows[c].instance
  }

  lemma TwinsAre(rows: Rows, al: Alias, a: AlarmId, c: AlarmId)
    ensures Collides(rows, al, a, c) <==>
              DevicelessPair(rows, al, a, c) || (Twin(rows, a, c, al.canonical) && rows[a].alarmType == al.name)
  {
  }

  /** The index refuses a rename exactly when it would leave two open alarms on one key. */
  lemma RenameKeepsTheIndexExactly(rows: Rows, al: Alias)
    requires OnePerKey(rows) && al.name != al.canonical
    ensures OnePerKey(Renamed(rows, al)) <==> !exists a, c :: Collides(rows, al, a, c)
  {
    var rows' := Renamed(rows, al);
    if a, c :| Collides(rows, al, a, c) {
      assert rows'[a].open && rows'[c].open && SameKey(rows'[a], rows'[c]) && a != c;
    } else {
      forall a, b | a in rows' && b in rows' && rows'[a].open && rows'[b].open && SameKey(rows'[a], rows'[b])
        ensures a == b {
        assert !Collides(rows, al, a, b) && !Collides(rows, al, b, a);
      }
    }
  }

  /** FOLD leaves one open alarm a key. */
  lemma FoldKeepsTheIndex(rows: Rows, al: Alias, now: Time, rows': Rows)
    requires OnePerKey(rows) && al.name != al.canonical && Folded(rows, al, now, rows')
    ensures OnePerKey(rows')
  {
    forall id | id in rows ensures rows'[id].open ==> rows[id].open && SameKey(rows[id], rows'[id]) {
      FoldedRow(rows, al, now, rows', id);
    }
  }

  /** What FOLD makes of one row. */
  lemma FoldedRow(rows: Rows, al: Alias, now: Time, rows': Rows, id: AlarmId)
    requires al.name != al.canonical && Folded(rows, al, now, rows') && id in rows
    ensures SameKey(rows[id], rows'[id])
    ensures rows[id].alarmType == al.name ==>
        rows'[id] == if HasTwin(rows, id, al.canonical) then Closed(rows[id], now) else rows[id]
    ensures rows[id].alarmType == al.canonical ==>
              rows'[id].open == rows[id].open && (!HasTwin(rows, id, al.name) ==> rows'[id] == rows[id]) &&
              forall a :: Twin(rows, id, a, al.name) ==> rows'[id] == Merge(rows[id], rows[a])
    ensures rows[id].alarmType != al.name && rows[id].alarmType != al.canonical ==> rows'[id] == rows[id]
  {
    assert RowAfter(rows, al, now, rows.Keys, id, rows'[id]);
    if rows[id].alarmType == al.canonical && HasTwin(rows, id, al.name) {
      var a :| Twin(rows, id, a, al.name);
      assert rows'[id] == Merge(rows[id], rows[a]);
    }
  }

  /** After FOLD, what still collides is exactly what its join missed: the pairs without a device. */
  lemma OnlyDevicelessPairsCollide(rows: Rows, al: Alias, now: Time, rows': Rows)
    requires OnePerKey(rows) && al.name != al.canonical && Folded(rows, al, now, rows')
    ensures (exists a, c :: Collides(rows', al, a, c)) <==> DevicelessTwins(rows, al)
  {
    forall a, c ensures Collides(rows', al, a, c) <==> DevicelessPair(rows, al, a, c) {
      if a in rows && c in rows {
        FoldedRow(rows, al, now, rows', a);
        FoldedRow(rows, al, now, rows', c);
        if Collides(rows', al, a, c) { TwinsAre(rows, al, a, c); }
        if DevicelessPair(rows, al, a, c) { assert !HasTwin(rows, a, al.canonical) && !HasTwin(rows, c, al.name); }
      }
    }
  }

  // ----------------------------------------------------------- one pair, from the start

  predicate Concerns(al: Alias, a: Alarm) {
    a.alarmType == al.name || a.alarmType == al.canonical
  }

  /** What becomes of a row of one of the pair's types, said of the rows before the migration. */
  ghost predicate RowDone(before: Rows, al: Alias, now: Time, id: AlarmId, row: Alarm)
    requires id in before
  {
    var a := before[id];
    if !a.open then row == a
    else if a.alarmType == al.name then
      row == if HasTwin(before, id, al.canonical) then Closed(a, now) else a.(alarmType := al.canonical)
    else
      (!HasTwin(before, id, al.name) ==> row == a) &&
      forall x :: Twin(before, id, x, al.name) ==> row == Merge(a, before[x])
  }

  ghost predicate PairDone(before: Rows, al: Alias, now: Time, after: Rows) {
    after.Keys == before.Keys &&
    forall id :: id in before ==> (Concerns(al, before[id]) <==> Concerns(al, after[id])) &&
                                  (Concerns(al, before[id]) ==> RowDone(before, al, now, id, after[id]))
  }

  /** The rows of the pair's types are the same rows, as they were. */
  ghost predicate Untouched(before: Rows, after: Rows, al: Alias) {
    after.Keys == before.Keys &&
    forall id :: id in before ==> (Concerns(al, before[id]) <==> Concerns(al, after[id])) &&
                                  (Concerns(al, before[id]) ==> after[id] == before[id])
  }

  lemma StepDoesThePair(rows: Rows, al: Alias, now: Time, mid: Rows)
    requires OnePerKey(rows) && al.name != al.canonical && Folded(rows, al, now, mid)
    ensures PairDone(rows, al, now, Renamed(mid, al))
  {
    forall id | id in rows ensures Concerns(al, rows[id]) ==> RowDone(rows, al, now, id, Renamed(mid, al)[id]) {
      FoldedRow(rows, al, now, mid, id);
    }
    forall id | id in rows ensures Concerns(al, rows[id]) <==> Concerns(al, Renamed(mid, al)[id]) {
      FoldedRow(rows, al, now, mid, id);
    }
  }

  predicate Apart(al: Alias, other: Alias) {
    al.name != other.name && al.name != other.canonical && al.canonical != other.name && al.canonical != other.canonical
  }

  lemma StepLeavesTheRest(rows: Rows, al: Alias, now: Time, mid: Rows, id: AlarmId)
    requires al.name != al.canonical && Folded(rows, al, now, mid) && id in rows
    ensures !Concerns(al, rows[id]) ==> Renamed(mid, al)[id] == rows[id]
    ensures Concerns(al, rows[id]) ==> Concerns(al, Renamed(mid, al)[id])
  {
    FoldedRow(rows, al, now, mid, id);
  }

  lemma StepLeavesOtherPairs(rows: Rows, al: Alias, now: Time, mid: Rows, other: Alias)
    requires al.name != al.canonical && Folded(rows, al, now, mid) && Apart(al, other)
    ensures Untouched(rows, Renamed(mid, al), other)
  {
    forall id | id in rows
      ensures Concerns(other, rows[id]) <==> Concerns(other, Renamed(mid, al)[id])
      ensures Concerns(other, rows[id]) ==> Renamed(mid, al)[id] == rows[id]
    {
      StepLeavesTheRest(rows, al, now, mid, id);
    }
  }

  lemma TwinsAreUntouched(before: Rows, after: Rows, al: Alias, id: AlarmId, t: AlarmId, name: string)
    requires Untouched(before, after, al) && (name == al.name || name == al.canonical)
    requires id in before && Concerns(al, before[id])
    ensures Twin(after, id, t, name) <==> Twin(before, id, t, name)
  {
  }

  /** A pair not yet reached comes out as if it had been first. */
  lemma DoneFromTheStart(before: Rows, rows: Rows, al: Alias, now: Time, after: Rows)
    requires Untouched(before, rows, al) && PairDone(rows, al, now, after)
    ensures PairDone(before, al, now, after)
  {
    forall id | id in before && Concerns(al, before[id]) ensures RowDone(before, al, now, id, after[id]) {
      assert RowDone(rows, al, now, id, after[id]);
      forall t, name | name == al.name || name == al.canonical
        ensures Twin(rows, id, t, name) <==> Twin(before, id, t, name)
      {
        TwinsAreUntouched(before, rows, al, id, t, name);
      }
    }
  }

  lemma StaysDone(before: Rows, rows: Rows, al: Alias, now: Time, after: Rows)
    requires PairDone(before, al, now, rows) && Untouched(rows, after, al)
    ensures PairDone(before, al, now, after)
  {
    forall id | id in before && Concerns(al, before[id]) ensures RowDone(before, al, now, id, after[id]) {
      assert RowDone(before, al, now, id, rows[id]);
    }
  }

  lemma UntouchedTwice(before: Rows, rows: Rows, after: Rows, al: Alias)
    requires Untouched(before, rows, al) && Untouched(rows, after, al)
    ensures Untouched(before, after, al)
  {
  }

  lemma DevicelessTwinsAreUntouched(before: Rows, rows: Rows, al: Alias)
    requires Untouched(before, rows, al)
    ensures DevicelessTwins(rows, al) <==> DevicelessTwins(before, al)
  {
    forall a, c ensures DevicelessPair(rows, al, a, c) <==> DevicelessPair(before, al, a, c) {
      if a in before && c in before { assert Concerns(al, before[a]) || !Concerns(al, before[a]); }
    }
  }

  // ------------------------------------------------------------------ the migration

  class AlarmTable {
    var rows: Rows
    var history: seq<Entry>

    constructor (rows: Rows)
      ensures this.rows == rows && history == []
    {
      this.rows, history := rows, [];
    }

    method FindTwin(snapshot: Rows, id: AlarmId, name: string) returns (t: Option<AlarmId>)
      ensures t.Some? <==> HasTwin(snapshot, id, name)
      ensures t.Some? ==> Twin(snapshot, id, t.value, name)
    {
      t := None;
      var todo := snapshot.Keys;
      while todo != {} && t.None?
        invariant todo <= snapshot.Keys
        invariant t.Some? ==> Twin(snapshot, id, t.value, name)
        invariant t.None? ==> forall x :: Twin(snapshot, id, x, name) ==> x in todo
        decreases todo
      {
        NonEmpty(todo);
        var x :| x in todo;
        if Twin(snapshot, id, x, name) { t := Some(x); }
        todo := todo - {x};
      }
    }

    /** FOLD: the pairs are those of the table before the statement. */
    method Fold(al: Alias, now: Time) returns (entries: seq<Entry>)
      requires OnePerKey(rows) && al.name != al.canonical
      modifies this
      ensures Folded(old(rows), al, now, rows)
      ensures history == old(history) + entries && Logged(old(rows), al, old(rows).Keys, entries)
    {
      hide RowAfter, Merge, Closed, HasTwin;
      var snapshot := rows;
      var todo := rows.Keys;
      entries := [];
      NothingFolded(snapshot, al, now, snapshot.Keys - todo);
      while todo != {}
        invariant snapshot == old(rows) && todo <= snapshot.Keys
        invariant FoldedSoFar(snapshot, al, now, snapshot.Keys - todo, rows)
        invariant history == old(history) + entries && Logged(snapshot, al, snapshot.Keys - todo, entries)
        decreases todo
      {
        NonEmpty(todo);
        var a :| a in todo;
        ghost var done := snapshot.Keys - todo;
        var t := None;
        if snapshot[a].alarmType == al.name { t := FindTwin(snapshot, a, al.canonical); }
        assert snapshot.Keys - (todo - {a}) == done + {a};
        if t.Some? {
          var c := t.value;
          FoldOneMore(snapshot, al, now, done, rows, a, c,
            rows[c := Merge(rows[c], snapshot[a])][a := Closed(snapshot[a], now)]);
          LogOneMore(snapshot, al, done, entries, a);
          rows := rows[c := Merge(rows[c], snapshot[a])][a := Closed(snapshot[a], now)];
          var entry := Entry(a, snapshot[a].device, snapshot[a].severity);
          history, entries := history + [entry], entries + [entry];
        } else {
          FoldNoMore(snapshot, al, now, done, rows, a);
        }
        todo := todo - {a};
      }
      assert snapshot.Keys - todo == snapshot.Keys;
    }

    /** RENAME: the index refuses it when a renamed row would share its key. */
    method Rename(al: Alias) returns (ok: bool)
      modifies this`rows
      ensures ok <==> !exists a, c :: Collides(old(rows), al, a, c)
      ensures rows == if ok then Renamed(old(rows), al) else old(rows)
    {
      ok := !exists a, c :: a in rows && c in rows && Collides(rows, al, a, c);
      if ok {
        rows := map id | id in rows ::
          if rows[id].open && rows[id].alarmType == al.name then rows[id].(alarmType := al.canonical) else rows[id];
      }
    }

    /** One turn of the loop: FOLD, then RENAME unless the index refuses it. */
    method MergePair(al: Alias, now: Time) returns (renamed: bool, ghost mid: Rows, ghost entries: seq<Entry>)
      requires OnePerKey(rows) && al.name != al.canonical
      modifies this
      ensures Folded(old(rows), al, now, mid) && Logged(old(rows), al, old(rows).Keys, entries)
      ensures renamed <==> !DevicelessTwins(old(rows), al)
      ensures renamed ==> rows == Renamed(mid, al) && history == old(history) + entries && OnePerKey(rows)
    {
      ghost var start := rows;
      entries := Fold(al, now);
      mid := rows;
      FoldKeepsTheIndex(start, al, now, mid);
      OnlyDevicelessPairsCollide(start, al, now, mid);
      RenameKeepsTheIndexExactly(mid, al);
      renamed := Rename(al);
    }

    /** The same turn, said of the rows the migration started from. */
    method MergeNext(aliases: seq<Alias>, k: nat, now: Time, ghost before: Rows, ghost log: seq<Entry>)
      returns (renamed: bool, ghost log': seq<Entry>)
      requires OnePerKey(rows) && AllApart(aliases) && k < |aliases| && MergedUpTo(before, aliases, k, now, rows, log)
      modifies this
      ensures renamed <==> !DevicelessTwins(before, aliases[k])
      ensures renamed ==> OnePerKey(rows) && MergedUpTo(before, aliases, k + 1, now, rows, log + log')
      ensures renamed ==> history == old(history) + log'
    {
      ghost var start, mid := rows, rows;
      DevicelessTwinsAreUntouched(before, start, aliases[k]);
      renamed, mid, log' := MergePair(aliases[k], now);
      OnePairMore(before, start, aliases, k, now, mid, log, log');
    }

    /** `upgrade`: one transaction, undone whole when a rename is refused. */
    method Upgrade(aliases: seq<Alias>, now: Time) returns (ok: bool, ghost log: seq<Entry>)
      requires OnePerKey(rows) && AllApart(aliases)
      modifies this
      ensures OnePerKey(rows) && history == old(history) + log
      ensures ok <==> forall i :: 0 <= i < |aliases| ==> !DevicelessTwins(old(rows), aliases[i])
      ensures !ok ==> rows == old(rows) && log == []
      ensures ok ==> MergedUpTo(old(rows), aliases, |aliases|, now, rows, log)
    {
      var rows0, history0 := rows, history;
      log := [];
      NothingMerged(rows0, aliases, now);
      for k := 0 to |aliases|
        invariant OnePerKey(rows) && history == history0 + log
        invariant forall i :: 0 <= i < k ==> !DevicelessTwins(rows0, aliases[i])
        invariant MergedUpTo(rows0, aliases, k, now, rows, log)
      {
        var renamed, entries := MergeNext(aliases, k, now, rows0, log);
        if !renamed {
          rows, history := rows0, history0;
          return false, [];
        }
        log := log + entries;
      }
      ok := true;
    }
  }

  lemma NothingMerged(rows: Rows, aliases: seq<Alias>, now: Time)
    ensures MergedUpTo(rows, aliases, 0, now, rows, [])
  {
  }

  /**
   The first k pairs merged, said of the rows before the migration; the other pairs' rows and all the
   rest as they were, and the log holding the merged aliases.
   */
  ghost predicate MergedUpTo(before: Rows, aliases: seq<Alias>, k: nat, now: Time, after: Rows, log: seq<Entry>) {
    && k <= |aliases|
    && (forall i :: 0 <= i < k ==> PairDone(before, aliases[i], now, after))
    && (forall i :: k <= i < |aliases| ==> Untouched(before, after, aliases[i]))
    && RestStands(before, aliases, after)
    && LogsTheMerged(before, aliases, k, log)
  }

  /** No two pairs share a name. */
  ghost predicate AllApart(aliases: seq<Alias>) {
    && (forall i :: 0 <= i < |aliases| ==> aliases[i].name != aliases[i].canonical)
    && (forall i, j :: 0 <= i < |aliases| && 0 <= j < |aliases| && i != j ==> Apart(aliases[i], aliases[j]))
  }

  /** Rows of no pair's types are as they were. */
  ghost predicate RestStands(before: Rows, aliases: seq<Alias>, after: Rows) {
    after.Keys == before.Keys &&
    forall id :: id in before && (forall i :: 0 <= i < |aliases| ==> !Concerns(aliases[i], before[id])) ==>
      after[id] == before[id]
  }

  lemma RestStandsStill(before: Rows, start: Rows, aliases: seq<Alias>, k: nat, now: Time, mid: Rows)
    requires k < |aliases| && AllApart(aliases) && Folded(start, aliases[k], now, mid) &&
        RestStands(before, aliases, start)
    ensures RestStands(before, aliases, Renamed(mid, aliases[k]))
  {
    forall id | id in before && (forall i :: 0 <= i < |aliases| ==> !Concerns(aliases[i], before[id]))
      ensures Renamed(mid, aliases[k])[id] == before[id]
    {
      StepLeavesTheRest(start, aliases[k], now, mid, id);
    }
  }

  /** The entry says that this alias was merged, with the severity it had before the migration. */
  ghost predicate IsMerged(before: Rows, al: Alias, e: Entry) {
    e.alarm in before && before[e.alarm].alarmType == al.name && HasTwin(before, e.alarm, al.canonical) &&
    e == Entry(e.alarm, before[e.alarm].device, before[e.alarm].severity)
  }

  /** The log holds the merged aliases of the first k pairs and nothing else. */
  ghost predicate LogsTheMerged(before: Rows, aliases: seq<Alias>, k: nat, log: seq<Entry>) {
    k <= |aliases| && forall e :: e in log <==> exists i :: 0 <= i < k && IsMerged(before, aliases[i], e)
  }

  lemma LogOnePairMore(before: Rows, start: Rows, aliases: seq<Alias>, k: nat, log: seq<Entry>, entries: seq<Entry>)
    requires k < |aliases| && LogsTheMerged(before, aliases, k, log)
    requires Untouched(before, start, aliases[k]) && Logged(start, aliases[k], start.Keys, entries)
    ensures LogsTheMerged(before, aliases, k + 1, log + entries)
  {
    var al := aliases[k];
    forall e ensures e in entries <==> IsMerged(before, al, e) {
      if e.alarm in before {
        forall t ensures Concerns(al, before[e.alarm]) ==>
          (Twin(start, e.alarm, t, al.canonical) <==> Twin(before, e.alarm, t, al.canonical)) {
          if Concerns(al, before[e.alarm]) { TwinsAreUntouched(before, start, al, e.alarm, t, al.canonical); }
        }
      }
      if IsMerged(before, al, e) {
        var i :| 0 <= i < |entries| && entries[i].alarm == e.alarm;
        assert entries[i] == e;
      }
    }
    forall e ensures e in log + entries <==> exists i :: 0 <= i < k + 1 && IsMerged(before, aliases[i], e) {
      if e in entries { assert IsMerged(before, aliases[k], e); }
    }
  }

  lemma OnePairMore(
    before: Rows, start: Rows, aliases: seq<Alias>, k: nat, now: Time, mid: Rows, log: seq<Entry>, entries: seq<Entry>)
    requires k < |aliases| && AllApart(aliases) && OnePerKey(start) && Folded(start, aliases[k], now, mid)
    requires MergedUpTo(before, aliases, k, now, start, log) && Logged(start, aliases[k], start.Keys, entries)
    ensures MergedUpTo(before, aliases, k + 1, now, Renamed(mid, aliases[k]), log + entries)
  {
    var al, after := aliases[k], Renamed(mid, aliases[k]);
    forall i | 0 <= i < k + 1 ensures PairDone(before, aliases[i], now, after) {
      if i == k {
        StepDoesThePair(start, al, now, mid);
        DoneFromTheStart(before, start, al, now, after);
      } else {
        StepLeavesOtherPairs(start, al, now, mid, aliases[i]);
        StaysDone(before, start, aliases[i], now, after);
      }
    }
    forall i | k + 1 <= i < |aliases| ensures Untouched(before, after, aliases[i]) {
      StepLeavesOtherPairs(start, al, now, mid, aliases[i]);
      UntouchedTwice(before, start, after, aliases[i]);
    }
    RestStandsStill(before, start, aliases, k, now, mid);
    LogOnePairMore(before, start, aliases, k, log, entries);
  }

  /** The pairs of the migration. */
  function Aliases(): seq<Alias> {
    [Alias("cpu_high_usage", "cpu_high"), Alias("cpu_sustained", "cpu_saturated"),
      Alias("memory_high_usage", "memory_high")]
  }

  lemma ThreeApart(x: Alias, y: Alias, z: Alias)
    requires x.name != x.canonical && y.name != y.canonical && z.name != z.canonical
    requires Apart(x, y) && Apart(x, z) && Apart(y, z)
    ensures AllApart([x, y, z])
  {
  }

  lemma ApartByLength(x: Alias, y: Alias)
    requires |x.name| != |y.name| && |x.name| != |y.canonical|
    requires |x.canonical| != |y.name| && |x.canonical| != |y.canonical|
    ensures Apart(x, y)
  {
  }

  lemma AliasesAreApart()
    ensures AllApart(Aliases())
  {
    hide Apart, AllApart;
    var high, saturated, memory := Aliases()[0], Aliases()[1], Aliases()[2];
    assert |high.name| == 14 && |high.canonical| == 8;
    assert |saturated.name| == 13 && |saturated.canonical| == 13 && saturated.name[5] != saturated.canonical[5];
    assert |memory.name| == 17 && |memory.canonical| == 11;
    ApartByLength(high, saturated);
    ApartByLength(high, memory);
    ApartByLength(saturated, memory);
    ThreeApart(high, saturated, memory);
  }

  // -------------------------------------------------------------- nothing is lost

  predicate OpenAt(rows: Rows, id: AlarmId, d: DeviceId, name: string, instance: string) {
    id in rows && rows[id].open && rows[id].device == Some(d) && rows[id].alarmType == name &&
      rows[id].instance == instance
  }

  /** The occurrences of the open alarm of a key, nothing when there is none. */
  ghost function CountAt(rows: Rows, d: DeviceId, name: string, instance: string): int {
    if exists id :: OpenAt(rows, id, d, name, instance) then
      var id :| OpenAt(rows, id, d, name, instance); rows[id].occurrences
    else 0
  }

  lemma CountIs(rows: Rows, d: DeviceId, name: string, instance: string, id: AlarmId)
    requires OnePerKey(rows) && OpenAt(rows, id, d, name, instance)
    ensures CountAt(rows, d, name, instance) == rows[id].occurrences
  {
    var x :| OpenAt(rows, x, d, name, instance) && CountAt(rows, d, name, instance) == rows[x].occurrences;
  }

  /** An open alarm under each name of the pair, on one device and instance. */
  predicate OpenTogether(rows: Rows, al: Alias, a: AlarmId, c: AlarmId) {
    && a in rows && rows[a].open && rows[a].alarmType == al.name
    && c in rows && rows[c].open && rows[c].alarmType == al.canonical
    && rows[a].device.Some? && rows[a].device == rows[c].device && rows[a].instance == rows[c].instance
  }

  lemma TogetherAreTwins(rows: Rows, al: Alias)
    ensures forall a, c :: OpenTogether(rows, al, a, c) <==>
        Twin(rows, a, c, al.canonical) && rows[a].alarmType == al.name
    ensures forall a, c :: OpenTogether(rows, al, a, c) <==>
        Twin(rows, c, a, al.name) && rows[c].alarmType == al.canonical
  {
  }

  /** CRITICAL before MAJOR before MINOR before WARNING before INFO before the rest. */
  lemma SeveritiesInOrder(other: string)
    requires other != "CRITICAL" && other != "MAJOR" && other != "MINOR" && other != "WARNING" && other != "INFO"
    ensures SeverityRank("CRITICAL") < SeverityRank("MAJOR") < SeverityRank("MINOR") < SeverityRank("WARNING")
    ensures SeverityRank("WARNING") < SeverityRank("INFO") < SeverityRank(other)
  {
  }

  /**
   The survivor, where an alias and its canonical alarm were open together: the canonical alarm with the graver
   severity of the two, its own where they are as grave; the earlier onset; and both counts. The alias is
   closed and otherwise as it was.
   */
  lemma SurvivorOfTwo(before: Rows, al: Alias, now: Time, after: Rows, a: AlarmId, c: AlarmId)
    requires OnePerKey(before) && al.name != al.canonical && PairDone(before, al, now, after)
    requires OpenTogether(before, al, a, c)
    ensures a in after && after[a] == before[a].(open := false, clearedAt := Some(now))
    ensures c in after && after[c] == before[c].(
              severity := after[c].severity, firstSeen := after[c].firstSeen, occurrences := after[c].occurrences)
    ensures after[c].firstSeen <= before[a].firstSeen && after[c].firstSeen <= before[c].firstSeen
    ensures after[c].firstSeen == before[a].firstSeen || after[c].firstSeen == before[c].firstSeen
    ensures SeverityRank(before[a].severity) < SeverityRank(before[c].severity) ==>
        after[c].severity == before[a].severity
    ensures SeverityRank(before[a].severity) >= SeverityRank(before[c].severity) ==>
        after[c].severity == before[c].severity
    ensures after[c].occurrences == before[a].occurrences + before[c].occurrences
  {
    TogetherAreTwins(before, al);
    TwinsPair(before, al, a, c);
    assert RowDone(before, al, now, a, after[a]) && RowDone(before, al, now, c, after[c]);
  }

  /** And where only the alias was: it keeps everything but the name. */
  lemma SurvivorOfOne(before: Rows, al: Alias, now: Time, after: Rows, a: AlarmId)
    requires PairDone(before, al, now, after)
    requires a in before && before[a].open && before[a].alarmType == al.name
    requires forall c :: !OpenTogether(before, al, a, c)
    ensures a in after && after[a] == before[a].(alarmType := al.canonical)
  {
    TogetherAreTwins(before, al);
    assert RowDone(before, al, now, a, after[a]);
  }

  /** Alarms of the two types that were closed, and canonical alarms open alone, are as they were. */
  lemma TheRestOfThePairStands(before: Rows, al: Alias, now: Time, after: Rows, x: AlarmId)
    requires al.name != al.canonical && PairDone(before, al, now, after) && x in before
    requires before[x].alarmType == al.name || before[x].alarmType == al.canonical
    requires !before[x].open || (before[x].alarmType == al.canonical && forall a :: !OpenTogether(before, al, a, x))
    ensures x in after && after[x] == before[x]
  {
    TogetherAreTwins(before, al);
    assert RowDone(before, al, now, x, after[x]);
  }

  /** The log says of each alias that stood beside its canonical alarm, and of no other, that it was merged. */
  lemma TheLogNamesTheMerged(before: Rows, aliases: seq<Alias>, now: Time, after: Rows, log: seq<Entry>, e: Entry)
    requires MergedUpTo(before, aliases, |aliases|, now, after, log)
    ensures e in log <==>
        exists i, c :: 0 <= i < |aliases| && OpenTogether(before, aliases[i], e.alarm, c) &&
          e == Entry(e.alarm, before[e.alarm].device, before[e.alarm].severity)
  {
    forall i | 0 <= i < |aliases|
      ensures IsMerged(before, aliases[i], e) <==>
          (exists c :: OpenTogether(before, aliases[i], e.alarm, c)) && e.alarm in before &&
          e == Entry(e.alarm, before[e.alarm].device, before[e.alarm].severity)
    {
      TogetherAreTwins(before, aliases[i]);
      if c :| Twin(before, e.alarm, c, aliases[i].canonical) { assert HasTwin(before, e.alarm, aliases[i].canonical); }
    }
  }

  /** No alias is left open. */
  lemma NoAliasLeft(before: Rows, al: Alias, now: Time, after: Rows, id: AlarmId)
    requires al.name != al.canonical && PairDone(before, al, now, after) && id in after && after[id].open
    ensures after[id].alarmType != al.name
  {
    if Concerns(al, before[id]) {
      assert RowDone(before, al, now, id, after[id]);
      if before[id].open && before[id].alarmType == al.canonical && HasTwin(before, id, al.name) {
        var x :| Twin(before, id, x, al.name);
        assert after[id] == Merge(before[id], before[x]);
      }
    }
  }

  /** The occurrences of the two open alarms of a device and instance are those of the one that is left. */
  lemma OccurrencesAreConserved(before: Rows, al: Alias, now: Time, after: Rows, d: DeviceId, instance: string)
    requires OnePerKey(before) && OnePerKey(after) && al.name != al.canonical && PairDone(before, al, now, after)
    ensures CountAt(after, d, al.canonical, instance) ==
            CountAt(before, d, al.name, instance) + CountAt(before, d, al.canonical, instance)
    ensures CountAt(after, d, al.name, instance) == 0
  {
    forall id ensures !OpenAt(after, id, d, al.name, instance) {
      if OpenAt(after, id, d, al.name, instance) { NoAliasLeft(before, al, now, after, id); }
    }
    if a :| OpenAt(before, a, d, al.name, instance) {
      CountIs(before, d, al.name, instance, a);
      if c :| OpenAt(before, c, d, al.canonical, instance) {
        CountIs(before, d, al.canonical, instance, c);
        assert OpenTogether(before, al, a, c);
        SurvivorOfTwo(before, al, now, after, a, c);
        CountIs(after, d, al.canonical, instance, c);
      } else {
        forall t ensures !OpenTogether(before, al, a, t) { assert !OpenAt(before, t, d, al.canonical, instance); }
        SurvivorOfOne(before, al, now, after, a);
        CountIs(after, d, al.canonical, instance, a);
      }
    } else if c :| OpenAt(before, c, d, al.canonical, instance) {
      CountIs(before, d, al.canonical, instance, c);
      NoTwinStands(before, al, now, after, d, instance, c);
      CountIs(after, d, al.canonical, instance, c);
    } else {
      NothingAppears(before, al, now, after, d, instance);
    }
  }

  lemma NoTwinStands(before: Rows, al: Alias, now: Time, after: Rows, d: DeviceId, instance: string, c: AlarmId)
    requires PairDone(before, al, now, after) && OpenAt(before, c, d, al.canonical, instance) && al.name != al.canonical
    requires forall a :: !OpenAt(before, a, d, al.name, instance)
    ensures after[c] == before[c]
  {
    assert RowDone(before, al, now, c, after[c]);
    forall a ensures !Twin(before, c, a, al.name) { assert !OpenAt(before, a, d, al.name, instance); }
  }

  lemma OpenRowsWereOpen(before: Rows, al: Alias, now: Time, after: Rows, x: AlarmId)
    requires PairDone(before, al, now, after) && x in before && Concerns(al, after[x]) && after[x].open
    ensures before[x].open && Concerns(al, before[x])
    ensures after[x].device == before[x].device && after[x].instance == before[x].instance
  {
    assert RowDone(before, al, now, x, after[x]);
    if before[x].open && before[x].alarmType != al.name && HasTwin(before, x, al.name) {
      var t :| Twin(before, x, t, al.name);
      assert after[x] == Merge(before[x], before[t]);
    }
  }

  lemma NothingAppears(before: Rows, al: Alias, now: Time, after: Rows, d: DeviceId, instance: string)
    requires PairDone(before, al, now, after) && al.name != al.canonical
    requires forall a :: !OpenAt(before, a, d, al.name, instance) && !OpenAt(before, a, d, al.canonical, instance)
    ensures forall x :: !OpenAt(after, x, d, al.canonical, instance)
  {
    forall x ensures !OpenAt(after, x, d, al.canonical, instance) {
      assert !OpenAt(before, x, d, al.name, instance) && !OpenAt(before, x, d, al.canonical, instance);
      if OpenAt(after, x, d, al.canonical, instance) { OpenRowsWereOpen(before, al, now, after, x); }
    }
  }

  /** Two open platform alarms, one under each name and neither with a device, and the migration is refused. */
  lemma APlatformPairIsRefused(now: Time) returns (rows: Rows)
    ensures OnePerKey(rows) && DevicelessTwins(rows, Aliases()[0])
    ensures forall mid :: Folded(rows, Aliases()[0], now, mid) ==> !OnePerKey(Renamed(mid, Aliases()[0]))
  {
    var al := Aliases()[0];
    rows := map[1 := Alarm(None, al.name, "", "MAJOR", 0, 1, true, None),
                2 := Alarm(None, al.canonical, "", "MAJOR", 0, 1, true, None)];
    assert |al.name| == 14 && |al.canonical| == 8;
    assert DevicelessPair(rows, al, 1, 2);
    forall mid | Folded(rows, al, now, mid) ensures !OnePerKey(Renamed(mid, al)) {
      OnlyDevicelessPairsCollide(rows, al, now, mid);
      FoldKeepsTheIndex(rows, al, now, mid);
      RenameKeepsTheIndexExactly(mid, al);
    }
  }
}
