/**
 Folding the open bands of one measurement: each lower band becomes a symptom of a higher one open on
 the same device and instance. Which higher one is the database's pick when several match.

 Some band always stays on top, whatever is open and whatever is picked, exactly when no walk from
 alarm type to alarm type along the join comes back to where it began. With one rule a type that is to
 say that no two enabled rules on a metric look towards each other: the statement compares the lower
 rule's operator only.
 */
module BandFold {
  import opened Wrappers

  type AlarmId = int
  type DeviceId = int
  type RuleId = int

  datatype Operator = Gt | Ge | Lt | Le | Eq | Ne | Absent

  datatype Rule = Rule(
    alarmType: string, metric: Option<string>, operator: Option<Operator>, threshold: Option<real>, enabled: bool)

  datatype Alarm = Alarm(
    device: Option<DeviceId>, alarmType: string, instance: string, open: bool, isSymptom: bool, root: Option<AlarmId>)

  type Rows = map<AlarmId, Alarm>
  type Rules = map<RuleId, Rule>

  datatype Entry = Entry(alarm: AlarmId, root: AlarmId, higher: string)

  /** A row of the statement's `pair`: the alarms and the rules that matched. */
  datatype Pair = Pair(low: AlarmId, high: AlarmId, lowRule: RuleId, highRule: RuleId)

  /** The rule of the higher band, as the join tests it: its own operator is not looked at. */
  predicate BandOver(low: Rule, high: Rule) {
    low.metric.Some? && high.metric == low.metric && high.alarmType != low.alarmType && high.enabled &&
    low.threshold.Some? && high.threshold.Some? &&
    ((low.operator == Some(Gt) && high.threshold.value > low.threshold.value) ||
     (low.operator == Some(Lt) && high.threshold.value < low.threshold.value))
  }

  predicate InView(a: Alarm) {
    a.open && !a.isSymptom
  }

  predicate Matches(rows: Rows, rules: Rules, p: Pair) {
    && p.low in rows && p.high in rows && p.lowRule in rules && p.highRule in rules
    && InView(rows[p.low]) && InView(rows[p.high])
    && rows[p.low].device.Some? && rows[p.high].device == rows[p.low].device &&
        rows[p.high].instance == rows[p.low].instance
    && rules[p.lowRule].alarmType == rows[p.low].alarmType && rules[p.highRule].alarmType == rows[p.high].alarmType
    && BandOver(rules[p.lowRule], rules[p.highRule])
  }

  ghost predicate Over(rows: Rows, rules: Rules, low: AlarmId, high: AlarmId) {
    exists lr, hr :: Matches(rows, rules, Pair(low, high, lr, hr))
  }

  /** Each alarm with a higher band over it, folded under one of those; the rest as they were. */
  ghost predicate Folded(rows: Rows, rules: Rules, rows': Rows) {
    rows'.Keys == rows.Keys && forall id :: id in rows ==> RowFolded(rows, rules, id, rows'[id])
  }

  ghost predicate RowFolded(rows: Rows, rules: Rules, id: AlarmId, row: Alarm)
    requires id in rows
  {
    if exists h :: Over(rows, rules, id, h) then
      row.root.Some? && Over(rows, rules, id, row.root.value) && row == rows[id].(isSymptom := true, root := row.root)
    else row == rows[id]
  }

  /** The rows of `pair`. */
  function AllPairs(rows: Rows, rules: Rules): (pairs: set<Pair>)
    ensures forall p :: p in pairs <==> Matches(rows, rules, p)
  {
    assert forall p: Pair :: p == Pair(p.low, p.high, p.lowRule, p.highRule);
    set l, h, lr, hr | l in rows && h in rows && lr in rules && hr in rules &&
      Matches(rows, rules, Pair(l, h, lr, hr)) ::
      Pair(l, h, lr, hr)
  }

  class AlarmTable {
    var rows: Rows
    var history: seq<Entry>

    constructor (rows: Rows)
      ensures this.rows == rows && history == []
    {
      this.rows, history := rows, [];
    }

    /** The whole statement: every pair logged once, every lower alarm updated from one of its pairs. */
    method Fold(rules: Rules)
      modifies this
      ensures Folded(old(rows), rules, rows)
      ensures |history| >= |old(history)| && history[..|old(history)|] == old(history)
      ensures forall e :: e in history[|old(history)|..] <==>
                exists p :: Matches(old(rows), rules, p) && e == Entry(p.low, p.high, rules[p.highRule].alarmType)
    {
      hide Over, Matches;
      ghost var before := rows;
      var pairs := AllPairs(rows, rules);
      var entries: seq<Entry> := [];
      var picked: map<AlarmId, AlarmId> := map[];
      var todo := pairs;
      while todo != {}
        invariant todo <= pairs && rows == before && history == old(history)
        invariant forall e :: e in entries <==>
            exists p :: p in pairs && p !in todo && e == Entry(p.low, p.high, rules[p.highRule].alarmType)
        invariant forall l :: l in picked ==> Over(before, rules, l, picked[l])
        invariant forall p :: p in pairs && p !in todo ==> p.low in picked
        decreases todo
      {
        var p := PickPair(todo);
        entries := entries + [Entry(p.low, p.high, rules[p.highRule].alarmType)];
        MatchIsOver(before, rules, p);
        picked := picked[p.low := p.high];
        todo := todo - {p};
      }
      rows := map id | id in rows ::
        if id in picked then rows[id].(isSymptom := true, root := Some(picked[id])) else rows[id];
      history := history + entries;
      PickedAreFolded(before, rules, picked, rows);
    }
  }

  lemma MatchIsOver(rows: Rows, rules: Rules, p: Pair)
    requires Matches(rows, rules, p)
    ensures Over(rows, rules, p.low, p.high)
  {
    assert p == Pair(p.low, p.high, p.lowRule, p.highRule);
  }

  /** An UPDATE from one of its pairs for every lower alarm is a fold. */
  lemma PickedAreFolded(rows: Rows, rules: Rules, picked: map<AlarmId, AlarmId>, rows': Rows)
    requires forall l :: l in picked ==> Over(rows, rules, l, picked[l])
    requires forall p :: Matches(rows, rules, p) ==> p.low in picked
    requires rows' == map id | id in rows ::
        if id in picked then rows[id].(isSymptom := true, root := Some(picked[id])) else rows[id]
    ensures Folded(rows, rules, rows')
  {
    forall id | id in rows ensures RowFolded(rows, rules, id, rows'[id]) {
      if h :| Over(rows, rules, id, h) {
        var lr, hr :| Matches(rows, rules, Pair(id, h, lr, hr));
      }
    }
  }

  method PickPair(pairs: set<Pair>) returns (p: Pair)
    requires pairs != {}
    ensures p in pairs
  {
    p :| p in pairs;
  }

  /**
   The two alarms are in view on one device and instance, and the join pairs them by these rules: on one metric,
   of different types, the higher's enabled, and its threshold further on in the direction the lower looks.
   */
  predicate PairedBy(rows: Rows, rules: Rules, low: AlarmId, high: AlarmId, lr: RuleId, hr: RuleId) {
    && low in rows && rows[low].open && !rows[low].isSymptom
    && high in rows && rows[high].open && !rows[high].isSymptom
    && rows[low].device.Some? && rows[low].device == rows[high].device && rows[low].instance == rows[high].instance
    && lr in rules && rules[lr].alarmType == rows[low].alarmType
    && hr in rules && rules[hr].alarmType == rows[high].alarmType && rules[hr].enabled
    && rows[low].alarmType != rows[high].alarmType
    && rules[lr].metric.Some? && rules[lr].metric == rules[hr].metric
    && rules[lr].threshold.Some? && rules[hr].threshold.Some?
    && ((rules[lr].operator == Some(Gt) && rules[lr].threshold.value < rules[hr].threshold.value) ||
        (rules[lr].operator == Some(Lt) && rules[lr].threshold.value > rules[hr].threshold.value))
  }

  lemma PairsAreMatches(rows: Rows, rules: Rules, low: AlarmId, high: AlarmId, lr: RuleId, hr: RuleId)
    ensures Matches(rows, rules, Pair(low, high, lr, hr)) <==> PairedBy(rows, rules, low, high, lr, hr)
  {
  }

  /** After a fold: an alarm paired with some higher one is a symptom of one such, and any other is as it was. */
  lemma WhoIsFolded(rows: Rows, rules: Rules, rows': Rows, id: AlarmId)
    requires Folded(rows, rules, rows') && id in rows
    ensures id in rows'
    ensures if exists h, lr, hr :: PairedBy(rows, rules, id, h, lr, hr) then
              exists h, lr, hr :: PairedBy(rows, rules, id, h, lr, hr) &&
                rows'[id] == rows[id].(isSymptom := true, root := Some(h))
            else rows'[id] == rows[id]
  {
    hide Matches, PairedBy;
    assert RowFolded(rows, rules, id, rows'[id]);
    if h, lr, hr :| PairedBy(rows, rules, id, h, lr, hr) {
      PairsAreMatches(rows, rules, id, h, lr, hr);
      assert Over(rows, rules, id, h);
      var root := rows'[id].root.value;
      var lr', hr' :| Matches(rows, rules, Pair(id, root, lr', hr'));
      PairsAreMatches(rows, rules, id, root, lr', hr');
      assert rows'[id] == rows[id].(isSymptom := true, root := Some(root));
    } else {
      forall h ensures !Over(rows, rules, id, h) {
        forall lr, hr ensures !Matches(rows, rules, Pair(id, h, lr, hr)) {
          PairsAreMatches(rows, rules, id, h, lr, hr);
        }
      }
    }
  }

  // ------------------------------------------------------------------ one on top

  /** Some rule of type `u` is a higher band over some rule of type `t`. */
  predicate TypeOver(rules: Rules, t: string, u: string) {
    exists r, s :: r in rules && s in rules && rules[r].alarmType == t && rules[s].alarmType == u &&
      BandOver(rules[r], rules[s])
  }

  ghost predicate TypeWalk(rules: Rules, w: seq<string>) {
    |w| > 1 && forall i :: 0 <= i < |w| - 1 ==> TypeOver(rules, w[i], w[i + 1])
  }

  /** No walk over alarm types comes back to where it began. */
  ghost predicate NoTypeCircle(rules: Rules) {
    forall w :: TypeWalk(rules, w) ==> w[0] != w[|w| - 1]
  }

  predicate SameKey(a: Alarm, b: Alarm) {
    a.device == b.device && a.alarmType == b.alarmType && a.instance == b.instance
  }

  /** The index: one open alarm a key. */
  ghost predicate OnePerKey(rows: Rows) {
    forall a, b :: a in rows && b in rows && rows[a].open && rows[b].open && SameKey(rows[a], rows[b]) ==> a == b
  }

  /** The roots from `c[0]` on, all of one device and instance, to an alarm in view. */
  ghost predicate LeadsToView(rows: Rows, c: seq<AlarmId>) {
    && |c| > 0 && (forall i :: 0 <= i < |c| ==> c[i] in rows)
    && (forall i :: 0 <= i < |c| ==>
        rows[c[i]].device == rows[c[0]].device && rows[c[i]].instance == rows[c[0]].instance)
    && (forall i :: 0 <= i < |c| - 1 ==> rows[c[i]].isSymptom && rows[c[i]].root == Some(c[i + 1]))
    && InView(rows[c[|c| - 1]])
  }

  ghost predicate HasOneOnTop(rows: Rows, id: AlarmId) {
    exists c :: LeadsToView(rows, c) && c[0] == id
  }

  /** Alarms that were in view, each folded under the next. */
  ghost predicate FoldChain(rows: Rows, rules: Rules, rows': Rows, c: seq<AlarmId>) {
    && |c| > 0 && (forall i :: 0 <= i < |c| ==> c[i] in rows && c[i] in rows' && InView(rows[c[i]]))
    && forall i :: 0 <= i < |c| - 1 ==> Over(rows, rules, c[i], c[i + 1]) && rows'[c[i]].root == Some(c[i + 1])
  }

  function Types(rows: Rows, c: seq<AlarmId>): seq<string>
    requires forall i :: 0 <= i < |c| ==> c[i] in rows
  {
    seq(|c|, i requires 0 <= i < |c| => rows[c[i]].alarmType)
  }

  lemma OverIsTypeOver(rows: Rows, rules: Rules, a: AlarmId, b: AlarmId)
    requires Over(rows, rules, a, b)
    ensures a in rows && b in rows && InView(rows[b]) && TypeOver(rules, rows[a].alarmType, rows[b].alarmType)
    ensures rows[b].device == rows[a].device && rows[b].instance == rows[a].instance
  {
    var lr, hr :| Matches(rows, rules, Pair(a, b, lr, hr));
  }

  /** A chain that came back would walk its types round in a circle. */
  lemma ChainsDoNotComeBack(rows: Rows, rules: Rules, rows': Rows, c: seq<AlarmId>, i: nat, j: nat)
    requires NoTypeCircle(rules) && FoldChain(rows, rules, rows', c) && i < j < |c|
    ensures c[i] != c[j]
  {
    var d := c[i..j + 1];
    var w := Types(rows, d);
    forall k | 0 <= k < |w| - 1 ensures TypeOver(rules, w[k], w[k + 1]) {
      assert d[k] == c[i + k] && d[k + 1] == c[i + k + 1];
      OverIsTypeOver(rows, rules, c[i + k], c[i + k + 1]);
    }
    assert TypeWalk(rules, w);
  }

  lemma {:induction false} DistinctFits(c: seq<AlarmId>, ids: set<AlarmId>)
    requires forall i, j :: 0 <= i < j < |c| ==> c[i] != c[j]
    requires forall i :: 0 <= i < |c| ==> c[i] in ids
    ensures |c| <= |ids|
  {
    if |c| > 0 {
      var last := c[|c| - 1];
      DistinctFits(c[..|c| - 1], ids - {last});
    }
  }

  lemma ChainFits(rows: Rows, rules: Rules, rows': Rows, c: seq<AlarmId>)
    requires NoTypeCircle(rules) && FoldChain(rows, rules, rows', c)
    ensures |c| <= |rows|
  {
    forall i, j | 0 <= i < j < |c| ensures c[i] != c[j] { ChainsDoNotComeBack(rows, rules, rows', c, i, j); }
    DistinctFits(c, rows.Keys);
  }

  lemma FoldedKeeps(rows: Rows, rules: Rules, rows': Rows, id: AlarmId)
    requires Folded(rows, rules, rows') && id in rows
    ensures id in rows' && rows'[id].open == rows[id].open && rows'[id].alarmType == rows[id].alarmType
    ensures rows'[id].device == rows[id].device && rows'[id].instance == rows[id].instance
  {
    assert RowFolded(rows, rules, id, rows'[id]);
  }

  /** An alarm is still as it was, or is folded under one that was over it. */
  lemma FoldedUnder(rows: Rows, rules: Rules, rows': Rows, id: AlarmId) returns (root: Option<AlarmId>)
    requires Folded(rows, rules, rows') && id in rows
    ensures id in rows' && rows'.Keys == rows.Keys
    ensures root.None? ==> rows'[id] == rows[id]
    ensures root.Some? ==> Over(rows, rules, id, root.value) && rows'[id].root == root
  {
    hide Over;
    assert RowFolded(rows, rules, id, rows'[id]);
    if h :| Over(rows, rules, id, h) { root := rows'[id].root; } else { root := None; }
  }

  lemma ChainGrows(rows: Rows, rules: Rules, rows': Rows, c: seq<AlarmId>, root: AlarmId)
    requires FoldChain(rows, rules, rows', c) && rows'.Keys == rows.Keys
    requires Over(rows, rules, c[|c| - 1], root) && rows'[c[|c| - 1]].root == Some(root)
    ensures FoldChain(rows, rules, rows', c + [root])
  {
    OverIsTypeOver(rows, rules, c[|c| - 1], root);
    hide Over, TypeOver;
    var longer := c + [root];
    forall i | 0 <= i < |longer| ensures longer[i] in rows && longer[i] in rows' && InView(rows[longer[i]]) {
      if i < |c| { assert c[i] in rows; }
    }
    forall i | 0 <= i < |longer| - 1
      ensures Over(rows, rules, longer[i], longer[i + 1]) && rows'[longer[i]].root == Some(longer[i + 1])
    {
      if i < |c| - 1 { assert Over(rows, rules, c[i], c[i + 1]); }
    }
  }

  /** Such a chain can be followed to its end. */
  lemma {:induction false} FollowToTheTop(rows: Rows, rules: Rules, rows': Rows, c: seq<AlarmId>)
      returns (whole: seq<AlarmId>)
    requires Folded(rows, rules, rows') && NoTypeCircle(rules) && FoldChain(rows, rules, rows', c)
    ensures FoldChain(rows, rules, rows', whole) && c <= whole
    ensures whole[|whole| - 1] in rows && rows'[whole[|whole| - 1]] == rows[whole[|whole| - 1]]
    decreases |rows| - |c|
  {
    hide Folded, Over, NoTypeCircle;
    ChainFits(rows, rules, rows', c);
    var last := c[|c| - 1];
    var root := FoldedUnder(rows, rules, rows', last);
    if root.Some? {
      ChainGrows(rows, rules, rows', c, root.value);
      ChainFits(rows, rules, rows', c + [root.value]);
      whole := FollowToTheTop(rows, rules, rows', c + [root.value]);
    } else {
      whole := c;
    }
  }

  lemma {:induction false} ChainStaysPut(rows: Rows, rules: Rules, rows': Rows, c: seq<AlarmId>, i: nat)
    requires Folded(rows, rules, rows') && FoldChain(rows, rules, rows', c) && i < |c|
    ensures rows'[c[i]].device == rows'[c[0]].device && rows'[c[i]].instance == rows'[c[0]].instance
    ensures i < |c| - 1 ==> rows'[c[i]].isSymptom
  {
    FoldedKeeps(rows, rules, rows', c[i]);
    assert RowFolded(rows, rules, c[i], rows'[c[i]]);
    if i < |c| - 1 { assert Over(rows, rules, c[i], c[i + 1]); }
    if i > 0 {
      ChainStaysPut(rows, rules, rows', c, i - 1);
      FoldedKeeps(rows, rules, rows', c[i - 1]);
      OverIsTypeOver(rows, rules, c[i - 1], c[i - 1 + 1]);
    }
  }

  /**
   Where no walk over types comes back, every alarm that was in view leads to one that still is, whatever
   was picked.
   */
  lemma OneStaysOnTop(rows: Rows, rules: Rules, rows': Rows, id: AlarmId)
    requires Folded(rows, rules, rows') && NoTypeCircle(rules) && id in rows && InView(rows[id])
    ensures HasOneOnTop(rows', id)
  {
    var c := FollowToTheTop(rows, rules, rows', [id]);
    forall i | 0 <= i < |c|
      ensures rows'[c[i]].device == rows'[c[0]].device && rows'[c[i]].instance == rows'[c[0]].instance
      ensures i < |c| - 1 ==> rows'[c[i]].isSymptom
    {
      ChainStaysPut(rows, rules, rows', c, i);
    }
    assert LeadsToView(rows', c) && c[0] == id;
  }

  // ------------------------------------------------------------------- exactly when

  /** Whatever is open and whatever is picked, each alarm that was in view leads to one that still is. */
  ghost predicate AlwaysOneOnTop(rules: Rules) {
    forall rows, rows', id :: OnePerKey(rows) && Folded(rows, rules, rows') && id in rows && InView(rows[id]) ==>
      HasOneOnTop(rows', id)
  }

  ghost predicate NothingInView(rows: Rows) {
    forall id :: id in rows ==> !InView(rows[id])
  }

  /** Nothing in view leads nowhere in view. */
  lemma NothingOnTop(rows: Rows, id: AlarmId)
    requires NothingInView(rows)
    ensures !HasOneOnTop(rows, id)
  {
    forall c | |c| > 0 ensures !LeadsToView(rows, c) {
      var last := c[|c| - 1];
      assert last in rows ==> !InView(rows[last]);
    }
  }

  /** Where a type first stands on a walk. */
  function FirstAt(w: seq<string>, t: string): (i: nat)
    requires t in w
    ensures i < |w| && w[i] == t && forall j :: 0 <= j < i ==> w[j] != t
  {
    if w[0] == t then 0 else 1 + FirstAt(w[1..], t)
  }

  function OpenOf(t: string): Alarm {
    Alarm(Some(0), t, "", true, false, None)
  }

  /**
   One open alarm of each type on the walk, all of one device and instance, numbered by where the type
   first stands.
   */
  function OneOfEach(w: seq<string>): Rows {
    map i | 0 <= i < |w| && FirstAt(w, w[i]) == i :: OpenOf(w[i])
  }

  /** Each of them folded under the alarm of the next type. */
  function RoundFolded(w: seq<string>): Rows
    requires |w| > 1
  {
    map i | 0 <= i < |w| && FirstAt(w, w[i]) == i ::
      OpenOf(w[i]).(isSymptom := true, root := Some(FirstAt(w, w[if i < |w| - 1 then i + 1 else 0])))
  }

  lemma NextTypeIsOver(rules: Rules, w: seq<string>, i: nat)
    requires TypeWalk(rules, w) && i < |w| - 1 && FirstAt(w, w[i]) == i
    ensures Over(OneOfEach(w), rules, i, FirstAt(w, w[i + 1]))
  {
    var rows, h := OneOfEach(w), FirstAt(w, w[i + 1]);
    assert TypeOver(rules, w[i], w[i + 1]);
    var r, s :| r in rules && s in rules && rules[r].alarmType == w[i] && rules[s].alarmType == w[i + 1] &&
      BandOver(rules[r], rules[s]);
    assert FirstAt(w, w[h]) == h;
    assert Matches(rows, rules, Pair(i, h, r, s));
  }

  /**
   Wherever a walk over types comes back, there is a table one statement folds away: an alarm a type, each
   under the next.
   */
  lemma TypeCircleHidesAll(rules: Rules, w: seq<string>) returns (rows: Rows, rows': Rows)
    requires TypeWalk(rules, w) && w[0] == w[|w| - 1]
    ensures OnePerKey(rows) && Folded(rows, rules, rows') && NothingInView(rows') && 0 in rows && InView(rows[0])
  {
    rows, rows' := OneOfEach(w), RoundFolded(w);
    forall i | i in rows ensures RowFolded(rows, rules, i, rows'[i]) {
      assert i < |w| - 1;
      NextTypeIsOver(rules, w, i);
    }
    assert FirstAt(w, w[0]) == 0;
  }

  /** Some band always stays on top if and only if no walk over alarm types comes back to where it began. */
  lemma OneOnTopExactly(rules: Rules)
    ensures AlwaysOneOnTop(rules) <==> NoTypeCircle(rules)
  {
    if NoTypeCircle(rules) {
      forall rows, rows', id | OnePerKey(rows) && Folded(rows, rules, rows') && id in rows && InView(rows[id])
        ensures HasOneOnTop(rows', id)
      {
        OneStaysOnTop(rows, rules, rows', id);
      }
    } else {
      var w :| TypeWalk(rules, w) && w[0] == w[|w| - 1];
      var rows, rows' := TypeCircleHidesAll(rules, w);
      NothingOnTop(rows', 0);
    }
  }

  // -------------------------------------------------------------- with one rule a type

  /** No alarm type has two rules. */
  ghost predicate OneRuleAType(rules: Rules) {
    forall r, s :: r in rules && s in rules && rules[r].alarmType == rules[s].alarmType ==> r == s
  }

  /**
   Two enabled rules on a metric that look towards each other: above the one, below the other, and the one
   is lower.
   */
  predicate Crossing(low: Rule, high: Rule) {
    low.enabled && high.enabled && low.metric.Some? && low.metric == high.metric &&
    low.operator == Some(Gt) && high.operator == Some(Lt) && low.threshold.Some? && high.threshold.Some? &&
    low.threshold.value < high.threshold.value
  }

  ghost predicate NoneCross(rules: Rules) {
    forall r, s :: r in rules && s in rules ==> !Crossing(rules[r], rules[s])
  }

  /** The rules still ahead of one in the direction it looks. */
  function Ahead(rules: Rules, r: RuleId): set<RuleId>
    requires r in rules
  {
    set s | s in rules && BandOver(rules[r], rules[s])
  }

  /** From an enabled rule the bands go one way only. */
  lemma BandsGoOneWay(rules: Rules, r: RuleId, s: RuleId)
    requires NoneCross(rules) && OneRuleAType(rules) && r in rules && s in rules && rules[r].enabled &&
        BandOver(rules[r], rules[s])
    ensures Ahead(rules, s) < Ahead(rules, r)
  {
    assert !Crossing(rules[r], rules[s]) && !Crossing(rules[s], rules[r]);
    forall x | x in Ahead(rules, s) ensures x in Ahead(rules, r) {
      assert !Crossing(rules[x], rules[s]) && !Crossing(rules[s], rules[x]);
      assert x != r;
    }
    assert s in Ahead(rules, r) && s !in Ahead(rules, s);
  }

  /** Along a walk from an enabled rule there is ever less ahead. */
  lemma {:induction false} LessAndLessAhead(rules: Rules, w: seq<string>, n: nat, r: RuleId) returns (s: RuleId)
    requires NoneCross(rules) && OneRuleAType(rules) && TypeWalk(rules, w) && 0 < n < |w|
    requires r in rules && rules[r].enabled && rules[r].alarmType == w[0]
    ensures s in rules && rules[s].enabled && rules[s].alarmType == w[n] && Ahead(rules, s) < Ahead(rules, r)
  {
    var from := r;
    if n > 1 { from := LessAndLessAhead(rules, w, n - 1, r); }
    assert TypeOver(rules, w[n - 1], w[n - 1 + 1]);
    var x;
    x, s :| x in rules && s in rules && rules[x].alarmType == w[n - 1] && rules[s].alarmType == w[n] &&
      BandOver(rules[x], rules[s]);
    assert x == from;
    BandsGoOneWay(rules, from, s);
  }

  /** With one rule a type, what a caller can check: types walk in no circle exactly when no two rules cross. */
  lemma NoTypeCircleExactly(rules: Rules)
    requires OneRuleAType(rules)
    ensures NoTypeCircle(rules) <==> NoneCross(rules)
  {
    if NoneCross(rules) {
      forall w | TypeWalk(rules, w) ensures w[0] != w[|w| - 1] {
        if w[0] == w[|w| - 1] {
          var n := |w| - 1;
          assert TypeOver(rules, w[n - 1], w[n - 1 + 1]);
          var x, r :| x in rules && r in rules && rules[x].alarmType == w[n - 1] && rules[r].alarmType == w[n] &&
            BandOver(rules[x], rules[r]);
          var s := LessAndLessAhead(rules, w, n, r);
        }
      }
    } else {
      var r, s :| r in rules && s in rules && Crossing(rules[r], rules[s]);
      assert r != s;
      CrossingTypesCircle(rules, r, s);
    }
  }

  lemma CrossingTypesCircle(rules: Rules, r: RuleId, s: RuleId)
    requires r in rules && s in rules && Crossing(rules[r], rules[s]) && rules[r].alarmType != rules[s].alarmType
    ensures TypeWalk(rules, [rules[r].alarmType, rules[s].alarmType, rules[r].alarmType])
  {
    assert BandOver(rules[r], rules[s]) && BandOver(rules[s], rules[r]);
  }

  /** Two rules of different types that cross fold their two alarms under each other. */
  lemma CrossingRulesHideBoth(rules: Rules, r: RuleId, s: RuleId) returns (rows: Rows, rows': Rows)
    requires r in rules && s in rules && Crossing(rules[r], rules[s]) && rules[r].alarmType != rules[s].alarmType
    ensures OnePerKey(rows) && Folded(rows, rules, rows') && NothingInView(rows') && 0 in rows && InView(rows[0])
  {
    CrossingTypesCircle(rules, r, s);
    rows, rows' := TypeCircleHidesAll(rules, [rules[r].alarmType, rules[s].alarmType, rules[r].alarmType]);
  }

  /** Rules that share an operator on each metric do not cross. */
  lemma OneOperatorNeverCrosses(rules: Rules)
    requires forall r, s :: r in rules && s in rules && rules[r].metric == rules[s].metric ==>
        rules[r].operator == rules[s].operator
    ensures NoneCross(rules)
  {
  }

  /** One rule a type and one operator a metric are enough. */
  lemma OneOperatorIsEnough(rules: Rules)
    requires OneRuleAType(rules)
    requires forall r, s :: r in rules && s in rules && rules[r].metric == rules[s].metric ==>
        rules[r].operator == rules[s].operator
    ensures AlwaysOneOnTop(rules)
  {
    OneOperatorNeverCrosses(rules);
    NoTypeCircleExactly(rules);
    OneOnTopExactly(rules);
  }

  /** One rule a type matters: with two, rules that share an operator can still fold both bands away. */
  lemma TwoRulesOfOneTypeHideBoth(a: string, b: string, m: string) returns (rules: Rules, rows: Rows, rows': Rows)
    requires a != b
    ensures NoneCross(rules) && !NoTypeCircle(rules)
    ensures OnePerKey(rows) && Folded(rows, rules, rows') && NothingInView(rows') && 0 in rows && InView(rows[0])
  {
    rules := map[1 := Rule(a, Some(m), Some(Gt), Some(80.0), true), 2 := Rule(a, Some(m), Some(Gt), Some(95.0), true),
                 3 := Rule(b, Some(m), Some(Gt), Some(90.0), true)];
    assert BandOver(rules[1], rules[3]) && BandOver(rules[3], rules[2]);
    var w := [a, b, a];
    assert TypeWalk(rules, w);
    rows, rows' := TypeCircleHidesAll(rules, w);
  }
}
