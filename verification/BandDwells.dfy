/**
 The one-pass alignment of alarm-rule dwells, and the law it is for: with the rules' dwells aligned,
 a lower band first raises no later than the higher one above it, over every stream of samples.

 The two UPDATEs are proved to leave every rule the weakest gate among itself and its higher bands, to
 be a fixpoint, and to order the gates. The law itself is a statement about the alarm engine's
 `evaluate`, and about any two bands that look the same way: it holds exactly when the lower rule needs
 no dwell at all, or its gates ask for no more than the higher band's and a sample that takes the lower
 band back to its safe side takes the higher band back too.
 */
module BandDwells {
  import opened Wrappers

  type RuleId = int
  /** Microseconds. */
  type Time = int

  datatype Operator = Gt | Ge | Lt | Le | Eq | Ne | Absent

  datatype Rule = Rule(
    metric: Option<string>, operator: Option<Operator>, threshold: Option<real>, clearThreshold: Option<real>,
    dwellSamples: int, dwellSeconds: Option<int>, clearDwellSamples: int, enabled: bool)

  type Rules = map<RuleId, Rule>

  /** `high` is an enabled band above `low` in the same direction: the join of both statements. */
  predicate Higher(low: Rule, high: Rule) {
    low.enabled && high.enabled && low.metric.Some? && low.metric == high.metric &&
    low.operator.Some? && low.operator == high.operator && low.threshold.Some? && high.threshold.Some? &&
    ((low.operator == Some(Gt) && high.threshold.value > low.threshold.value) ||
     (low.operator == Some(Lt) && high.threshold.value < low.threshold.value))
  }

  /** The time gate `a` asks for no more than `b`; no gate asks for nothing. */
  predicate Weaker(a: Option<int>, b: Option<int>) {
    a.None? || (b.Some? && a.value <= b.value)
  }

  // -------------------------------------------------------------- the statements

  /** `n` is the smallest sample dwell among the rule and its higher bands. */
  ghost predicate LeastSamples(rules: Rules, id: RuleId, n: int)
    requires id in rules
  {
    && n <= rules[id].dwellSamples
    && (forall h :: h in rules && Higher(rules[id], rules[h]) ==> n <= rules[h].dwellSamples)
    && (n == rules[id].dwellSamples || exists h ::
        h in rules && Higher(rules[id], rules[h]) && n == rules[h].dwellSamples)
  }

  /** `s` is the weakest time gate among the rule and its higher bands. */
  ghost predicate WeakestSeconds(rules: Rules, id: RuleId, s: Option<int>)
    requires id in rules
  {
    && Weaker(s, rules[id].dwellSeconds)
    && (forall h :: h in rules && Higher(rules[id], rules[h]) ==> Weaker(s, rules[h].dwellSeconds))
    && (s == rules[id].dwellSeconds || exists h ::
        h in rules && Higher(rules[id], rules[h]) && s == rules[h].dwellSeconds)
  }

  /** After both statements: every rule has the weakest gates, and is otherwise as it was. */
  ghost predicate Aligned(before: Rules, after: Rules) {
    && after.Keys == before.Keys
    && forall id :: id in before ==>
         && after[id] == before[id].(dwellSamples := after[id].dwellSamples, dwellSeconds := after[id].dwellSeconds)
         && LeastSamples(before, id, after[id].dwellSamples)
         && WeakestSeconds(before, id, after[id].dwellSeconds)
  }

  class RuleTable {
    var rules: Rules

    constructor (rules: Rules)
      ensures this.rules == rules
    {
      this.rules := rules;
    }

    /** The cap on one rule's samples: `family` and LEAST in one. */
    method SampleCap(id: RuleId) returns (n: int)
      requires id in rules
      ensures LeastSamples(rules, id, n)
    {
      n := rules[id].dwellSamples;
      var todo := rules.Keys;
      while todo != {}
        invariant todo <= rules.Keys && n <= rules[id].dwellSamples
        invariant forall h :: h in rules && h !in todo && Higher(rules[id], rules[h]) ==> n <= rules[h].dwellSamples
        invariant n == rules[id].dwellSamples || exists h ::
            h in rules && Higher(rules[id], rules[h]) && n == rules[h].dwellSamples
        decreases todo
      {
        NonEmpty(todo);
        var h :| h in todo;
        if Higher(rules[id], rules[h]) && rules[h].dwellSamples < n { n := rules[h].dwellSamples; }
        todo := todo - {h};
      }
    }

    method SecondsCap(id: RuleId) returns (s: Option<int>)
      requires id in rules
      ensures WeakestSeconds(rules, id, s)
    {
      s := rules[id].dwellSeconds;
      var todo := rules.Keys;
      while todo != {}
        invariant todo <= rules.Keys && Weaker(s, rules[id].dwellSeconds)
        invariant forall h :: h in rules && h !in todo && Higher(rules[id], rules[h]) ==>
            Weaker(s, rules[h].dwellSeconds)
        invariant s == rules[id].dwellSeconds || exists h ::
            h in rules && Higher(rules[id], rules[h]) && s == rules[h].dwellSeconds
        decreases todo
      {
        NonEmpty(todo);
        var h :| h in todo;
        if Higher(rules[id], rules[h]) && !Weaker(s, rules[h].dwellSeconds) { s := rules[h].dwellSeconds; }
        todo := todo - {h};
      }
    }

    /** ALIGN_SAMPLES: every cap is read from the table as it was before the statement. */
    method AlignSamples()
      modifies this
      ensures rules.Keys == old(rules).Keys
      ensures forall id :: id in old(rules) ==>
                rules[id] == old(rules)[id].(dwellSamples := rules[id].dwellSamples) &&
                  LeastSamples(old(rules), id, rules[id].dwellSamples)
    {
      var after := rules;
      var todo := rules.Keys;
      while todo != {}
        invariant todo <= rules.Keys == after.Keys && rules == old(rules)
        invariant forall id :: id in todo ==> after[id] == rules[id]
        invariant forall id :: id in rules && id !in todo ==>
                    after[id] == rules[id].(dwellSamples := after[id].dwellSamples) &&
                      LeastSamples(rules, id, after[id].dwellSamples)
        decreases todo
      {
        NonEmpty(todo);
        var id :| id in todo;
        var n := SampleCap(id);
        after := after[id := rules[id].(dwellSamples := n)];
        todo := todo - {id};
      }
      rules := after;
    }

    /** ALIGN_SECONDS. */
    method AlignSeconds()
      modifies this
      ensures rules.Keys == old(rules).Keys
      ensures forall id :: id in old(rules) ==>
                rules[id] == old(rules)[id].(dwellSeconds := rules[id].dwellSeconds) &&
                  WeakestSeconds(old(rules), id, rules[id].dwellSeconds)
    {
      var after := rules;
      var todo := rules.Keys;
      while todo != {}
        invariant todo <= rules.Keys == after.Keys && rules == old(rules)
        invariant forall id :: id in todo ==> after[id] == rules[id]
        invariant forall id :: id in rules && id !in todo ==>
                    after[id] == rules[id].(dwellSeconds := after[id].dwellSeconds) &&
                      WeakestSeconds(rules, id, after[id].dwellSeconds)
        decreases todo
      {
        NonEmpty(todo);
        var id :| id in todo;
        var s := SecondsCap(id);
        after := after[id := rules[id].(dwellSeconds := s)];
        todo := todo - {id};
      }
      rules := after;
    }

    /** `upgrade`: the two statements, the second on the rows the first left. */
    method Upgrade()
      modifies this
      ensures Aligned(old(rules), rules)
    {
      ghost var before := rules;
      AlignSamples();
      ghost var middle := rules;
      AlignSeconds();
      forall id | id in before
        ensures WeakestSeconds(before, id, rules[id].dwellSeconds)
      {
        SecondsReadTheSame(before, middle, id, rules[id].dwellSeconds);
      }
    }
  }

  /** The second statement's caps do not depend on the samples the first one wrote. */
  lemma SecondsReadTheSame(before: Rules, middle: Rules, id: RuleId, s: Option<int>)
    requires middle.Keys == before.Keys && id in before
    requires forall x :: x in before ==> middle[x] == before[x].(dwellSamples := middle[x].dwellSamples)
    requires WeakestSeconds(middle, id, s)
    ensures WeakestSeconds(before, id, s)
  {
    assert forall h :: h in before ==> (Higher(before[id], before[h]) <==> Higher(middle[id], middle[h]));
  }

  // ------------------------------------------------------------ what alignment gives

  /** The lower band's gates ask for no more than the higher band's. */
  predicate GatesOrdered(low: Rule, high: Rule) {
    low.dwellSamples <= high.dwellSamples && Weaker(low.dwellSeconds, high.dwellSeconds)
  }

  /** One pass puts every pair of bands in order, however long the chain of bands. */
  lemma AlignmentOrdersGates(before: Rules, after: Rules, l: RuleId, h: RuleId)
    requires Aligned(before, after) && l in after && h in after && Higher(after[l], after[h])
    ensures GatesOrdered(after[l], after[h])
  {
    assert Higher(before[l], before[h]);
    if after[h].dwellSamples != before[h].dwellSamples {
      var x :| x in before && Higher(before[h], before[x]) && after[h].dwellSamples == before[x].dwellSamples;
      assert Higher(before[l], before[x]);
    }
    if after[h].dwellSeconds != before[h].dwellSeconds {
      var x :| x in before && Higher(before[h], before[x]) && after[h].dwellSeconds == before[x].dwellSeconds;
      assert Higher(before[l], before[x]);
    }
  }

  /** Two enabled rules on one metric with one operator, each with a threshold. */
  predicate OneScale(a: Rule, b: Rule, op: Operator) {
    a.enabled && b.enabled && a.metric.Some? && a.metric == b.metric && a.operator == b.operator == Some(op) &&
    a.threshold.Some? && b.threshold.Some?
  }

  /** The rule waits no longer than the other: for no more samples, nor for longer. */
  predicate WaitsNoLonger(a: Rule, b: Rule) {
    && a.dwellSamples <= b.dwellSamples
    && (b.dwellSeconds.None? ==> a.dwellSeconds.None?)
    && (b.dwellSeconds.Some? && a.dwellSeconds.Some? ==> a.dwellSeconds.value <= b.dwellSeconds.value)
  }

  /**
   After the upgrade, of any two enabled rules on > the one with the lower threshold waits no longer, and of any
   two on < the one with the higher threshold; and no rule waits longer than it did.
   */
  lemma BandsWaitInOrder(before: Rules, after: Rules, l: RuleId, h: RuleId)
    requires Aligned(before, after) && l in before && h in before
    ensures OneScale(before[l], before[h], Gt) && before[l].threshold.value < before[h].threshold.value ==>
        WaitsNoLonger(after[l], after[h])
    ensures OneScale(before[l], before[h], Lt) && before[l].threshold.value > before[h].threshold.value ==>
        WaitsNoLonger(after[l], after[h])
    ensures WaitsNoLonger(after[l], before[l])
  {
    if Higher(after[l], after[h]) { AlignmentOrdersGates(before, after, l, h); }
  }

  /** `h` is a rule above `l` on > or below it on <. */
  predicate Caps(before: Rules, l: RuleId, h: RuleId) {
    l in before && h in before &&
    ((OneScale(before[l], before[h], Gt) && before[l].threshold.value < before[h].threshold.value) ||
     (OneScale(before[l], before[h], Lt) && before[l].threshold.value > before[h].threshold.value))
  }

  /** What a rule's gates become is its own or one of those above it; nothing else about it changes. */
  lemma GatesComeFromTheBands(before: Rules, after: Rules, l: RuleId)
    requires Aligned(before, after) && l in before
    ensures after[l].dwellSamples == before[l].dwellSamples ||
        exists h :: Caps(before, l, h) && after[l].dwellSamples == before[h].dwellSamples
    ensures after[l].dwellSeconds == before[l].dwellSeconds ||
        exists h :: Caps(before, l, h) && after[l].dwellSeconds == before[h].dwellSeconds
    ensures after[l] == before[l].(dwellSamples := after[l].dwellSamples, dwellSeconds := after[l].dwellSeconds)
  {
    forall h | h in before ensures Higher(before[l], before[h]) <==> Caps(before, l, h) {}
  }

  /** And it is a fixpoint: aligning again changes nothing. */
  lemma AlignmentIsAFixpoint(before: Rules, once: Rules, twice: Rules)
    requires Aligned(before, once) && Aligned(once, twice)
    ensures twice == once
  {
    forall id | id in once ensures twice[id] == once[id] {
      forall h | h in once && Higher(once[id], once[h]) ensures GatesOrdered(once[id], once[h]) {
        AlignmentOrdersGates(before, once, id, h);
      }
    }
  }

  // --------------------------------------------------------------------- the engine

  /** Progress of one rule on one signal. */
  datatype Dwell = Dwell(breaches: nat, clears: nat, first: Time)

  datatype Sample = Sample(value: real, at: Time)

  datatype Action = Raise | Clear | Nothing

  const FRESH := Dwell(0, 0, 0)

  predicate Compare(v: real, op: Operator, t: real) {
    match op
    case Gt => v > t
    case Ge => v >= t
    case Lt => v < t
    case Le => v <= t
    case Eq => v == t
    case Ne => v != t
    case Absent => false
  }

  function ClearOperator(op: Operator): Operator {
    match op
    case Gt => Lt
    case Ge => Lt
    case Lt => Gt
    case Le => Gt
    case Eq => Eq
    case Ne => Ne
    case Absent => Absent
  }

  function AtLeastOne(n: int): int { if n > 1 then n else 1 }

  predicate Breaches(r: Rule, v: real) {
    r.operator.Some? && r.threshold.Some? && Compare(v, r.operator.value, r.threshold.value)
  }

  function ClearAt(r: Rule): real
    requires r.threshold.Some?
  {
    if r.clearThreshold.Some? then r.clearThreshold.value else r.threshold.value
  }

  predicate Recovers(r: Rule, v: real) {
    r.operator.Some? && r.threshold.Some? && !Breaches(r, v) && Compare(v, ClearOperator(r.operator.value), ClearAt(r))
  }

  /** `evaluate` for a numeric rule: one sample, the action and the new progress. */
  function Evaluate(r: Rule, x: Sample, s: Dwell): (Action, Dwell) {
    if Breaches(r, x.value) then
      var first := if s.first != 0 then s.first else x.at;
      var s' := Dwell(s.breaches + 1, 0, first);
      var held := s'.breaches >= AtLeastOne(r.dwellSamples) &&
                  (r.dwellSeconds.None? || x.at - first >= r.dwellSeconds.value * 1_000_000);
      (if held then Raise else Nothing, s')
    else if Recovers(r, x.value) then
      if s.clears + 1 >= AtLeastOne(r.clearDwellSamples) then (Clear, FRESH) else (Nothing, Dwell(0, s.clears + 1, 0))
    else (Nothing, s)
  }

  /** The progress after a stream. */
  function Progress(r: Rule, xs: seq<Sample>): Dwell {
    if xs == [] then FRESH else Evaluate(r, xs[|xs| - 1], Progress(r, xs[..|xs| - 1])).1
  }

  /** The rule raises at the last sample of a stream. */
  predicate RaisesAtEnd(r: Rule, xs: seq<Sample>) {
    xs != [] && Evaluate(r, xs[|xs| - 1], Progress(r, xs[..|xs| - 1])).0 == Raise
  }

  /** Samples in time order, after the epoch. */
  ghost predicate InTime(xs: seq<Sample>) {
    (forall i :: 0 <= i < |xs| ==> xs[i].at > 0) && forall i, j :: 0 <= i < j < |xs| ==> xs[i].at <= xs[j].at
  }

  ghost predicate HasRaised(r: Rule, xs: seq<Sample>) {
    exists n :: 0 <= n <= |xs| && RaisesAtEnd(r, xs[..n])
  }

  /** Over every stream, by the time the higher band raises the lower one has. */
  ghost predicate LowerFirst(low: Rule, high: Rule) {
    forall xs :: InTime(xs) && RaisesAtEnd(high, xs) ==> HasRaised(low, xs)
  }

  // ----------------------------------------------------------- the engine, said of streams

  /** The breaches since the last sample on the safe side. */
  function Streak(r: Rule, xs: seq<Sample>): set<int> {
    set i | 0 <= i < |xs| && Breaches(r, xs[i].value) && forall j :: i < j < |xs| ==> !Recovers(r, xs[j].value)
  }

  /** `i` is the first of them. */
  ghost predicate StreakStarts(r: Rule, xs: seq<Sample>, i: int) {
    i in Streak(r, xs) && forall j :: j in Streak(r, xs) ==> i <= j
  }

  lemma BreachIsNoRecovery(r: Rule, v: real)
    ensures !(Breaches(r, v) && Recovers(r, v))
  {
  }

  lemma StreakInRange(r: Rule, xs: seq<Sample>)
    ensures forall i :: i in Streak(r, xs) ==> 0 <= i < |xs|
  {
  }

  lemma StreakOneMore(r: Rule, xs: seq<Sample>, x: Sample, i: int)
    ensures i in Streak(r, xs + [x]) <==>
        (i == |xs| && Breaches(r, x.value)) || (i in Streak(r, xs) && !Recovers(r, x.value))
  {
    hide Breaches, Recovers;
    var ys := xs + [x];
    assert ys[|xs|] == x && forall j :: 0 <= j < |xs| ==> ys[j] == xs[j];
    BreachIsNoRecovery(r, x.value);
  }

  /** The progress keeps the streak's length and where it starts. */
  ghost predicate Tracks(r: Rule, xs: seq<Sample>, s: Dwell) {
    && s.breaches == |Streak(r, xs)|
    && (s.first == 0 <==> Streak(r, xs) == {})
    && (s.first != 0 ==> exists i :: StreakStarts(r, xs, i) && i < |xs| && s.first == xs[i].at)
  }

  lemma BreachTracks(r: Rule, xs: seq<Sample>, x: Sample, s: Dwell, s': Dwell)
    requires Tracks(r, xs, s) && Breaches(r, x.value) && x.at > 0
    requires s' == Dwell(s.breaches + 1, 0, if s.first != 0 then s.first else x.at)
    ensures Tracks(r, xs + [x], s')
  {
    hide Breaches, Recovers, Streak;
    StreakInRange(r, xs);
    BreachIsNoRecovery(r, x.value);
    forall i ensures i in Streak(r, xs + [x]) <==> i == |xs| || i in Streak(r, xs) { StreakOneMore(r, xs, x, i); }
    assert Streak(r, xs + [x]) == Streak(r, xs) + {|xs|};
    if i :| StreakStarts(r, xs, i) && s.first != 0 && s.first == xs[i].at {
      assert StreakStarts(r, xs + [x], i) && (xs + [x])[i] == xs[i];
    } else {
      assert StreakStarts(r, xs + [x], |xs|);
    }
  }

  lemma QuietTracks(r: Rule, xs: seq<Sample>, x: Sample, s: Dwell, s': Dwell)
    requires Tracks(r, xs, s) && !Breaches(r, x.value)
    requires s'.breaches == (if Recovers(r, x.value) then 0 else s.breaches)
    requires s'.first == if Recovers(r, x.value) then 0 else s.first
    ensures Tracks(r, xs + [x], s')
  {
    hide Breaches, Recovers, Streak;
    StreakInRange(r, xs);
    forall i ensures i in Streak(r, xs + [x]) <==> i in Streak(r, xs) && !Recovers(r, x.value) {
      StreakOneMore(r, xs, x, i);
    }
    if Recovers(r, x.value) {
      assert Streak(r, xs + [x]) == {};
    } else {
      assert Streak(r, xs + [x]) == Streak(r, xs);
      if i :| StreakStarts(r, xs, i) && s.first != 0 && s.first == xs[i].at {
        assert StreakStarts(r, xs + [x], i) && (xs + [x])[i] == xs[i];
      }
    }
  }

  lemma {:induction false} ProgressTracks(r: Rule, xs: seq<Sample>)
    requires InTime(xs)
    ensures Tracks(r, xs, Progress(r, xs))
  {
    if xs == [] {
      assert Streak(r, xs) == {};
    } else {
      hide Breaches, Recovers, Tracks;
      var init, x := xs[..|xs| - 1], xs[|xs| - 1];
      assert xs == init + [x];
      ProgressTracks(r, init);
      if Breaches(r, x.value) {
        BreachCounts(r, x, Progress(r, init));
        BreachTracks(r, init, x, Progress(r, init), Progress(r, xs));
      } else {
        QuietTracks(r, init, x, Progress(r, init), Progress(r, xs));
      }
    }
  }

  /**
   The engine raises at a breach exactly when, counting it, as many samples have breached since the last one on
   the safe side as the rule asks for, and the first of those is as long ago as it asks for.
   */
  lemma RaisesExactly(r: Rule, xs: seq<Sample>, x: Sample, i: int)
    requires InTime(xs + [x]) && Breaches(r, x.value) && StreakStarts(r, xs + [x], i)
    ensures RaisesAtEnd(r, xs + [x]) <==>
              |Streak(r, xs + [x])| >= r.dwellSamples &&
              (r.dwellSeconds.None? || x.at - (xs + [x])[i].at >= r.dwellSeconds.value * 1_000_000)
  {
    hide Breaches, Recovers, Streak, Progress;
    ProgressTracks(r, xs + [x]);
    StreakInRange(r, xs + [x]);
    LastOf(r, xs, x);
    BreachCounts(r, x, Progress(r, xs));
    var j :| StreakStarts(r, xs + [x], j) && Progress(r, xs + [x]).first == (xs + [x])[j].at;
    assert i == j;
  }

  /** And nowhere but at a breach. */
  lemma RaisesOnBreach(r: Rule, xs: seq<Sample>)
    requires RaisesAtEnd(r, xs)
    ensures Breaches(r, xs[|xs| - 1].value)
  {
  }

  /** The samples on the safe side since the last breach. */
  function Calm(r: Rule, xs: seq<Sample>): set<int> {
    set i | 0 <= i < |xs| && Recovers(r, xs[i].value) && forall j :: i < j < |xs| ==> !Breaches(r, xs[j].value)
  }

  lemma CalmAt(r: Rule, xs: seq<Sample>, x: Sample, i: int)
    ensures i in Calm(r, xs + [x]) <==>
        (i == |xs| && Recovers(r, x.value)) || (i in Calm(r, xs) && !Breaches(r, x.value))
  {
    hide Breaches, Recovers;
    var ys := xs + [x];
    assert ys[|xs|] == x && forall j :: 0 <= j < |xs| ==> ys[j] == xs[j];
    BreachIsNoRecovery(r, x.value);
  }

  lemma CalmOneMore(r: Rule, xs: seq<Sample>, x: Sample)
    ensures Breaches(r, x.value) ==> |Calm(r, xs + [x])| == 0
    ensures Recovers(r, x.value) ==> |Calm(r, xs + [x])| == |Calm(r, xs)| + 1
    ensures !Breaches(r, x.value) && !Recovers(r, x.value) ==> |Calm(r, xs + [x])| == |Calm(r, xs)|
  {
    assert |xs| !in Calm(r, xs);
    hide Breaches, Recovers, Calm;
    BreachIsNoRecovery(r, x.value);
    forall i ensures i in Calm(r, xs + [x]) <==>
        (i == |xs| && Recovers(r, x.value)) || (i in Calm(r, xs) && !Breaches(r, x.value))
    {
      CalmAt(r, xs, x, i);
    }
    assert Calm(r, xs + [x]) == (if Breaches(r, x.value) then {} else Calm(r, xs)) +
        if Recovers(r, x.value) then {|xs|} else {};
  }

  lemma OneMoreLap(c: nat, n: int)
    requires n >= 1
    ensures if c % n + 1 >= n then (c + 1) % n == 0 else (c + 1) % n == c % n + 1
  {
    assert c == c / n * n + c % n;
    if c % n + 1 >= n {
      Laps(c / n + 1, 0, n);
    } else {
      Laps(c / n, c % n + 1, n);
    }
  }

  lemma Laps(q: int, m: int, n: int)
    requires 0 <= m < n
    ensures (q * n + m) % n == m
  {
    var x := q * n + m;
    assert x == x / n * n + x % n;
    OneRemainder(x / n, x % n, q, m, n);
  }

  lemma OneRemainder(q: int, r: int, p: int, m: int, n: int)
    requires 0 <= r < n && 0 <= m < n && q * n + r == p * n + m
    ensures r == m
  {
    var k := q - p;
    assert k * n == m - r by { assert k * n == q * n - p * n; }
    Multiples(k, n);
  }

  lemma Multiples(k: int, n: int)
    requires n > 0
    ensures (k > 0 ==> k * n >= n) && (k < 0 ==> k * n <= -n)
  {
  }

  lemma OneAtLeast(n: int)
    ensures AtLeastOne(n) >= 1
  {
  }

  lemma {:induction false} ProgressCountsCalm(r: Rule, xs: seq<Sample>)
    ensures Progress(r, xs).clears == |Calm(r, xs)| % AtLeastOne(r.clearDwellSamples)
  {
    hide Breaches, Recovers, AtLeastOne;
    if xs == [] {
      assert Calm(r, xs) == {};
      assert 0 % AtLeastOne(r.clearDwellSamples) == 0 by { OneAtLeast(r.clearDwellSamples); }
    } else {
      hide Calm;
      OneAtLeast(r.clearDwellSamples);
      var init, x := xs[..|xs| - 1], xs[|xs| - 1];
      assert xs == init + [x];
      ProgressCountsCalm(r, init);
      CalmOneMore(r, init, x);
      BreachIsNoRecovery(r, x.value);
      OneMoreLap(|Calm(r, init)|, AtLeastOne(r.clearDwellSamples));
    }
  }

  /**
   The engine clears at a sample on the safe side exactly when, counting it, as many of them have come since the
   last breach as the rule asks for, or a multiple of that; nothing between the two limits counts.
   */
  lemma ClearsExactly(r: Rule, xs: seq<Sample>, x: Sample)
    ensures Evaluate(r, x, Progress(r, xs)).0 == Clear <==>
              Recovers(r, x.value) && |Calm(r, xs + [x])| % (if r.clearDwellSamples > 1 then r.clearDwellSamples
                else 1) == 0
  {
    hide Breaches, Recovers, Calm, Progress;
    ProgressCountsCalm(r, xs);
    CalmOneMore(r, xs, x);
    BreachIsNoRecovery(r, x.value);
    OneMoreLap(|Calm(r, xs)|, AtLeastOne(r.clearDwellSamples));
  }

  // ------------------------------------------------------------------------ the law

  predicate LooksUp(op: Operator) { op.Gt? || op.Ge? }

  predicate LooksDown(op: Operator) { op.Lt? || op.Le? }

  /** `high` is a band above `low` that looks the same way: what the law is about, whatever the join selects. */
  predicate BandAbove(low: Rule, high: Rule) {
    low.enabled && high.enabled && low.metric.Some? && low.metric == high.metric &&
    low.operator.Some? && high.operator.Some? && low.threshold.Some? && high.threshold.Some? &&
    ((LooksUp(low.operator.value) && LooksUp(high.operator.value) && high.threshold.value > low.threshold.value) ||
     (LooksDown(low.operator.value) && LooksDown(high.operator.value) && high.threshold.value < low.threshold.value))
  }

  /** How many samples a rule waits for. */
  function Samples(r: Rule): int {
    AtLeastOne(r.dwellSamples)
  }

  /** How long a rule waits. */
  function Wait(r: Rule): Time {
    if r.dwellSeconds.Some? && r.dwellSeconds.value > 0 then r.dwellSeconds.value * 1_000_000 else 0
  }

  /** The rule raises on the first breach. */
  predicate Instant(r: Rule) {
    Samples(r) == 1 && Wait(r) == 0
  }

  /** How many samples a rule has counted by the time it raises, at the least: any wait takes a second one. */
  function LeastCount(r: Rule): int {
    if Wait(r) > 0 && Samples(r) < 2 then 2 else Samples(r)
  }

  /** The lower band's gates are passed whenever the higher band's are. */
  predicate GatesHold(low: Rule, high: Rule) {
    Wait(low) <= Wait(high) && Samples(low) <= LeastCount(high)
  }

  lemma OrderedGatesHold(low: Rule, high: Rule)
    requires GatesOrdered(low, high)
    ensures GatesHold(low, high)
  {
  }

  /** No value between the higher band's clearing point and the lower band's limits resets the lower alone. */
  predicate Nested(low: Rule, high: Rule)
    requires low.operator.Some? && low.threshold.Some? && high.threshold.Some?
  {
    var t := low.threshold.value;
    if LooksUp(low.operator.value) then
      ClearAt(low) <= ClearAt(high) || t < ClearAt(high) || (low.operator.value.Ge? && t == ClearAt(high))
    else
      ClearAt(low) >= ClearAt(high) || t > ClearAt(high) || (low.operator.value.Le? && t == ClearAt(high))
  }

  /** What resets the lower band, where the two are nested, resets the higher. */
  lemma NestedResets(low: Rule, high: Rule, v: real)
    requires BandAbove(low, high) && Nested(low, high) && Recovers(low, v)
    ensures Recovers(high, v)
  {
  }

  /** A value beyond the higher band is beyond the lower. */
  lemma HigherBreachesBoth(low: Rule, high: Rule, v: real)
    requires BandAbove(low, high) && Breaches(high, v)
    ensures Breaches(low, v)
  {
  }

  /** The lower band is at least as far along as the higher. */
  predicate Ahead(l: Dwell, h: Dwell) {
    h.breaches <= l.breaches && (h.first != 0 ==> l.first != 0 && l.first <= h.first)
  }

  lemma StepKeepsAhead(low: Rule, high: Rule, x: Sample, l: Dwell, h: Dwell)
    requires BandAbove(low, high) && Nested(low, high) && Ahead(l, h) && x.at > 0 && l.first <= x.at
    ensures Ahead(Evaluate(low, x, l).1, Evaluate(high, x, h).1)
  {
    if Breaches(high, x.value) { HigherBreachesBoth(low, high, x.value); }
    if Recovers(low, x.value) { NestedResets(low, high, x.value); }
    hide Breaches, Recovers, BandAbove, Nested;
  }

  /** A first breach is never later than the latest sample. */
  lemma {:induction false} FirstIsNotLater(r: Rule, xs: seq<Sample>, t: Time)
    requires t > 0 && forall i :: 0 <= i < |xs| ==> xs[i].at <= t
    ensures Progress(r, xs).first <= t
  {
    if xs != [] { FirstIsNotLater(r, xs[..|xs| - 1], t); }
  }

  /** While nothing is counted, no first breach is kept. */
  lemma {:induction false} NoCountNoFirst(r: Rule, xs: seq<Sample>)
    ensures Progress(r, xs).breaches == 0 ==> Progress(r, xs).first == 0
  {
    if xs != [] { NoCountNoFirst(r, xs[..|xs| - 1]); }
  }

  lemma {:induction false} StaysAhead(low: Rule, high: Rule, xs: seq<Sample>)
    requires BandAbove(low, high) && Nested(low, high) && InTime(xs)
    ensures Ahead(Progress(low, xs), Progress(high, xs))
  {
    if xs != [] {
      var init, x := xs[..|xs| - 1], xs[|xs| - 1];
      StaysAhead(low, high, init);
      FirstIsNotLater(low, init, x.at);
      StepKeepsAhead(low, high, x, Progress(low, init), Progress(high, init));
    }
  }

  /** Both gates in one: counted enough, and waited long enough. */
  lemma RaisesWhen(r: Rule, x: Sample, s: Dwell)
    requires s.first <= x.at && Breaches(r, x.value)
    ensures var first := if s.first != 0 then s.first else x.at;
            Evaluate(r, x, s).0 == Raise <==> s.breaches + 1 >= Samples(r) && x.at - first >= Wait(r)
  {
  }

  lemma AheadRaisesToo(low: Rule, high: Rule, x: Sample, l: Dwell, h: Dwell)
    requires BandAbove(low, high) && GatesHold(low, high) && Ahead(l, h) && l.first <= x.at && h.first <= x.at
    requires (h.breaches == 0 ==> h.first == 0) && Evaluate(high, x, h).0 == Raise
    ensures Evaluate(low, x, l).0 == Raise
  {
    HigherBreachesBoth(low, high, x.value);
    RaisesWhen(high, x, h);
    RaisesWhen(low, x, l);
    hide Evaluate, Breaches, BandAbove;
  }

  /** Where the bands are nested and the gates hold, the lower raises at every sample the higher does. */
  lemma NestedBandsRaiseTogether(low: Rule, high: Rule, xs: seq<Sample>)
    requires BandAbove(low, high) && GatesHold(low, high) && Nested(low, high) && InTime(xs) && RaisesAtEnd(high, xs)
    ensures RaisesAtEnd(low, xs)
  {
    var init, x := xs[..|xs| - 1], xs[|xs| - 1];
    StaysAhead(low, high, init);
    FirstIsNotLater(low, init, x.at);
    FirstIsNotLater(high, init, x.at);
    NoCountNoFirst(high, init);
    AheadRaisesToo(low, high, x, Progress(low, init), Progress(high, init));
  }

  lemma InstantRaises(low: Rule, high: Rule, xs: seq<Sample>)
    requires BandAbove(low, high) && Instant(low) && InTime(xs) && RaisesAtEnd(high, xs)
    ensures RaisesAtEnd(low, xs)
  {
    var init, x := xs[..|xs| - 1], xs[|xs| - 1];
    FirstIsNotLater(low, init, x.at);
    HigherBreachesBoth(low, high, x.value);
    RaisesWhen(low, x, Progress(low, init));
  }

  // --------------------------------------------------------------- when it breaks

  /** High, then just inside the lower band's safe side, over and over. */
  function Teeth(peak: real, dip: real, step: Time, n: nat): seq<Sample> {
    if n == 0 then [] else Teeth(peak, dip, step, n - 1) + [Sample(peak, n * step), Sample(dip, n * step)]
  }

  /** A peak breaches both bands; a dip resets the lower and leaves the higher holding. */
  predicate Parts(low: Rule, high: Rule, peak: real, dip: real) {
    Breaches(low, peak) && Breaches(high, peak) && Recovers(low, dip) && !Breaches(high, dip) && !Recovers(high, dip)
  }

  /** A value beyond both bands. */
  function Beyond(high: Rule): real
    requires high.operator.Some? && high.threshold.Some?
  {
    if LooksUp(high.operator.value) then high.threshold.value + 1.0 else high.threshold.value - 1.0
  }

  lemma UnnestedBandsPart(low: Rule, high: Rule) returns (peak: real, dip: real)
    requires BandAbove(low, high) && !Nested(low, high)
    ensures Parts(low, high, peak, dip)
  {
    dip := ClearAt(high);
    peak := Beyond(high);
  }

  lemma LastOf(r: Rule, xs: seq<Sample>, x: Sample)
    ensures Progress(r, xs + [x]) == Evaluate(r, x, Progress(r, xs)).1
    ensures RaisesAtEnd(r, xs + [x]) <==> Evaluate(r, x, Progress(r, xs)).0 == Raise
  {
    assert (xs + [x])[..|xs|] == xs;
  }

  lemma TwoMore(r: Rule, xs: seq<Sample>, up: Sample, down: Sample)
    ensures Progress(r, xs + [up] + [down]) == Evaluate(r, down, Evaluate(r, up, Progress(r, xs)).1).1
  {
    hide Evaluate, Progress, RaisesAtEnd;
    LastOf(r, xs, up);
    LastOf(r, xs + [up], down);
  }

  lemma LastTooth(peak: real, dip: real, step: Time, n: nat)
    requires n > 0
    ensures Teeth(peak, dip, step, n) == Teeth(peak, dip, step, n - 1) + [Sample(peak, n * step)] +
        [Sample(dip, n * step)]
  {
  }

  /** Along the teeth the higher band counts every peak from the first, and the lower is back at nothing. */
  lemma {:induction false} TeethProgress(low: Rule, high: Rule, peak: real, dip: real, step: Time, n: nat)
    requires Parts(low, high, peak, dip) && step > 0
    ensures var l, h := Progress(low, Teeth(peak, dip, step, n)), Progress(high, Teeth(peak, dip, step, n));
            && l.breaches == 0 && l.first == 0
            && h.breaches == n && h.first == if n == 0 then 0 else step
  {
    if n > 0 {
      TeethProgress(low, high, peak, dip, step, n - 1);
      var before, up, down := Teeth(peak, dip, step, n - 1), Sample(peak, n * step), Sample(dip, n * step);
      LastTooth(peak, dip, step, n);
      TwoMore(low, before, up, down);
      TwoMore(high, before, up, down);
    }
  }

  ghost predicate NeverRaises(r: Rule, xs: seq<Sample>) {
    forall n :: 0 <= n <= |xs| ==> !RaisesAtEnd(r, xs[..n])
  }

  lemma NeverRaisesMore(r: Rule, xs: seq<Sample>, x: Sample)
    requires NeverRaises(r, xs) && Evaluate(r, x, Progress(r, xs)).0 != Raise
    ensures NeverRaises(r, xs + [x])
  {
    LastOf(r, xs, x);
    forall n | 0 <= n <= |xs + [x]| ensures !RaisesAtEnd(r, (xs + [x])[..n]) {
      if n <= |xs| { assert (xs + [x])[..n] == xs[..n]; } else { assert (xs + [x])[..n] == xs + [x]; }
    }
  }

  /** A lower band that needs some dwell never gets it between two dips. */
  lemma {:induction false} TeethKeepTheLowerQuiet(low: Rule, high: Rule, peak: real, dip: real, step: Time, n: nat)
    requires Parts(low, high, peak, dip) && step > 0 && !Instant(low)
    ensures NeverRaises(low, Teeth(peak, dip, step, n))
    ensures NeverRaises(low, Teeth(peak, dip, step, n) + [Sample(peak, (n + 1) * step)])
  {
    var xs := Teeth(peak, dip, step, n);
    if n > 0 {
      TeethKeepTheLowerQuiet(low, high, peak, dip, step, n - 1);
      var before, up, down := Teeth(peak, dip, step, n - 1), Sample(peak, n * step), Sample(dip, n * step);
      NeverRaisesMore(low, before + [up], down);
      LastTooth(peak, dip, step, n);
    }
    TeethProgress(low, high, peak, dip, step, n);
    NeverRaisesMore(low, xs, Sample(peak, (n + 1) * step));
  }

  ghost predicate InTimeBy(xs: seq<Sample>, t: Time) {
    InTime(xs) && forall i :: 0 <= i < |xs| ==> xs[i].at <= t
  }

  lemma OneLater(xs: seq<Sample>, t: Time, x: Sample)
    requires InTimeBy(xs, t) && t <= x.at && x.at > 0
    ensures InTimeBy(xs + [x], x.at)
  {
  }

  lemma {:induction false} TeethAreInTime(peak: real, dip: real, step: Time, n: nat)
    requires step > 0
    ensures InTimeBy(Teeth(peak, dip, step, n), n * step)
  {
    if n > 0 {
      TeethAreInTime(peak, dip, step, n - 1);
      var before, up, down := Teeth(peak, dip, step, n - 1), Sample(peak, n * step), Sample(dip, n * step);
      assert (n - 1) * step + step == n * step >= step;
      OneLater(before, (n - 1) * step, up);
      OneLater(before + [up], n * step, down);
      LastTooth(peak, dip, step, n);
    }
  }

  /** Ordered gates are not enough: without nesting, a sawtooth raises the higher band and never the lower. */
  lemma ASawtoothRaisesOnlyTheHigher(low: Rule, high: Rule) returns (xs: seq<Sample>)
    requires BandAbove(low, high) && !Nested(low, high) && !Instant(low)
    ensures InTime(xs) && RaisesAtEnd(high, xs) && !HasRaised(low, xs)
  {
    var peak, dip := UnnestedBandsPart(low, high);
    var step, n := 1 + Wait(high), Samples(high);
    var teeth, last := Teeth(peak, dip, step, n), Sample(peak, (n + 1) * step);
    xs := teeth + [last];
    TeethAreInTime(peak, dip, step, n);
    LongEnough(n, step);
    OneLater(teeth, n * step, last);
    TeethKeepTheLowerQuiet(low, high, peak, dip, step, n);
    TeethProgress(low, high, peak, dip, step, n);
    LastOf(high, teeth, last);
  }

  lemma LongEnough(n: int, step: Time)
    requires n >= 1 && step > 0
    ensures (n + 1) * step - step == n * step >= step
  {
  }

  /** The same value over and over at one moment. */
  function Still(v: real, n: nat): seq<Sample> {
    if n == 0 then [] else Still(v, n - 1) + [Sample(v, 1)]
  }

  lemma BreachCounts(r: Rule, x: Sample, s: Dwell)
    requires Breaches(r, x.value)
    ensures Evaluate(r, x, s).1 == Dwell(s.breaches + 1, 0, if s.first != 0 then s.first else x.at)
  {
  }

  lemma NoProgress(r: Rule)
    ensures Progress(r, []) == FRESH
  {
  }

  /** Each rule the value breaches counts it every time, from the first. */
  lemma {:induction false} StillProgress(r: Rule, v: real, n: nat)
    requires Breaches(r, v)
    ensures var s := Progress(r, Still(v, n)); s.breaches == n && s.first == if n == 0 then 0 else 1
    ensures InTimeBy(Still(v, n), 1)
  {
    hide Evaluate, Progress, Breaches, RaisesAtEnd;
    if n == 0 {
      NoProgress(r);
    } else {
      StillProgress(r, v, n - 1);
      LastOf(r, Still(v, n - 1), Sample(v, 1));
      BreachCounts(r, Sample(v, 1), Progress(r, Still(v, n - 1)));
      OneLater(Still(v, n - 1), 1, Sample(v, 1));
    }
  }

  lemma NothingNeverRaises(r: Rule)
    ensures NeverRaises(r, [])
  {
  }

  lemma {:induction false} StillKeepsQuiet(r: Rule, v: real, n: nat)
    requires Breaches(r, v) && (Wait(r) > 0 || n < Samples(r))
    ensures NeverRaises(r, Still(v, n))
  {
    hide Evaluate, Breaches, Progress, RaisesAtEnd, Wait, Samples, NeverRaises;
    if n == 0 {
      NothingNeverRaises(r);
    } else {
      StillKeepsQuiet(r, v, n - 1);
      StillProgress(r, v, n - 1);
      RaisesWhen(r, Sample(v, 1), Progress(r, Still(v, n - 1)));
      NeverRaisesMore(r, Still(v, n - 1), Sample(v, 1));
    }
  }

  /** Where the lower band's gates ask for more, a value that only stays beyond both raises the higher band first. */
  lemma AStandingValueRaisesOnlyTheHigher(low: Rule, high: Rule) returns (xs: seq<Sample>)
    requires BandAbove(low, high) && !GatesHold(low, high)
    ensures InTime(xs) && RaisesAtEnd(high, xs) && !HasRaised(low, xs)
  {
    var v, n, last := Beyond(high), LeastCount(high) - 1, Sample(Beyond(high), 1 + Wait(high));
    xs := Still(v, n) + [last];
    HigherBreachesBoth(low, high, v);
    StillProgress(low, v, n);
    StillProgress(high, v, n);
    OneLater(Still(v, n), 1, last);
    RaisesWhen(high, last, Progress(high, Still(v, n)));
    RaisesWhen(low, last, Progress(low, Still(v, n)));
    LastOf(high, Still(v, n), last);
    StillKeepsQuiet(low, v, n);
    NeverRaisesMore(low, Still(v, n), last);
  }

  /**
   The law, exactly: between any two bands that look the same way, the lower raises first over every
   stream if and only if it needs no dwell, or its gates hold and the two are nested.
   */
  lemma LowerRaisesFirstExactly(low: Rule, high: Rule)
    requires BandAbove(low, high)
    ensures LowerFirst(low, high) <==> Instant(low) || (GatesHold(low, high) && Nested(low, high))
  {
    if Instant(low) || (GatesHold(low, high) && Nested(low, high)) {
      forall xs | InTime(xs) && RaisesAtEnd(high, xs) ensures HasRaised(low, xs) {
        if Instant(low) { InstantRaises(low, high, xs); } else { NestedBandsRaiseTogether(low, high, xs); }
        assert xs[..|xs|] == xs;
      }
    } else if !GatesHold(low, high) {
      var xs := AStandingValueRaisesOnlyTheHigher(low, high);
    } else {
      var xs := ASawtoothRaisesOnlyTheHigher(low, high);
    }
  }

  /** What the join selects are bands that look the same way. */
  lemma HigherIsAbove(low: Rule, high: Rule)
    requires Higher(low, high)
    ensures BandAbove(low, high)
  {
  }

  /**
   So after `upgrade` every pair of bands the join selects keeps the law but for a deadband, and always
   without one.
   */
  lemma AlignedBandsRaiseInOrder(before: Rules, after: Rules, l: RuleId, h: RuleId)
    requires Aligned(before, after) && l in after && h in after && Higher(after[l], after[h])
    ensures LowerFirst(after[l], after[h]) <==> Instant(after[l]) || Nested(after[l], after[h])
    ensures after[h].clearThreshold.None? ==> LowerFirst(after[l], after[h])
  {
    AlignmentOrdersGates(before, after, l, h);
    OrderedGatesHold(after[l], after[h]);
    HigherIsAbove(after[l], after[h]);
    LowerRaisesFirstExactly(after[l], after[h]);
  }

  /** But the join selects no bands on >= or <=: those rules are left as they were, with the dwells they had. */
  lemma InclusiveBandsAreLeft(before: Rules, after: Rules, id: RuleId)
    requires Aligned(before, after) && id in before && before[id].operator != Some(Gt) &&
        before[id].operator != Some(Lt)
    ensures after[id] == before[id]
  {
  }

  /** And two of them, with no deadband and already as the statements leave them, break the law. */
  lemma InclusiveBandsBreakTheLaw(metric: string) returns (rules: Rules)
    ensures Aligned(rules, rules) && 0 in rules && 1 in rules && BandAbove(rules[0], rules[1])
    ensures rules[0].clearThreshold.None? && rules[1].clearThreshold.None? && !LowerFirst(rules[0], rules[1])
  {
    var low := Rule(Some(metric), Some(Ge), Some(80.0), None, 3, None, 1, true);
    var high := Rule(Some(metric), Some(Ge), Some(90.0), None, 2, None, 1, true);
    rules := map[0 := low, 1 := high];
    LowerRaisesFirstExactly(low, high);
  }
}
