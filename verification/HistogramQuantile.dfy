/**
 The quantile of a cumulative histogram, interpolated inside the bucket that contains it. Counts and
 edges are real numbers; the last edge may be infinite.
 */
module HistogramQuantile {
  import opened Wrappers

  datatype Edge = Finite(x: real) | Infinite

  datatype Bucket = Bucket(edge: Edge, count: real)

  predicate EdgeBelow(a: Edge, b: Edge) {
    a.Finite? && (b.Infinite? || a.x < b.x)
  }

  /** The order of (edge, count) pairs. */
  predicate Before(a: Bucket, b: Bucket) {
    EdgeBelow(a.edge, b.edge) || (a.edge == b.edge && a.count <= b.count)
  }

  ghost predicate Sorted(bs: seq<Bucket>) {
    forall i, j :: 0 <= i < j < |bs| ==> Before(bs[i], bs[j])
  }

  // ---------------------------------------------------------------- the answer

  function PrevEdge(bs: seq<Bucket>, i: nat): Edge
    requires i <= |bs|
  {
    if i == 0 then Finite(0.0) else bs[i - 1].edge
  }

  function PrevCount(bs: seq<Bucket>, i: nat): real
    requires i <= |bs|
  {
    if i == 0 then 0.0 else bs[i - 1].count
  }

  /** The first bucket, from `i` on, that holds the target. */
  function Hit(bs: seq<Bucket>, target: real, i: nat): (k: nat)
    requires i <= |bs|
    ensures i <= k <= |bs|
    ensures k < |bs| ==> bs[k].count >= target
    ensures forall j :: i <= j < k ==> bs[j].count < target
    decreases |bs| - i
  {
    if i == |bs| || bs[i].count >= target then i else Hit(bs, target, i + 1)
  }

  function Interpolate(from: real, to: real, part: real, span: real): real
    requires span > 0.0
  {
    from + (to - from) * part / span
  }

  /** What bucket `i` answers. */
  function Inside(bs: seq<Bucket>, target: real, i: nat): Edge
    requires i < |bs|
  {
    var edge, prev, span := bs[i].edge, PrevEdge(bs, i), bs[i].count - PrevCount(bs, i);
    if edge.Infinite? then prev
    else if span <= 0.0 || prev.Infinite? then edge
    else Finite(Interpolate(prev.x, edge.x, target - PrevCount(bs, i), span))
  }

  /** The loop over sorted buckets, and what it falls through to. */
  function Answer(bs: seq<Bucket>, target: real): Edge
    requires bs != []
  {
    var i := Hit(bs, target, 0);
    if i < |bs| then Inside(bs, target, i) else bs[|bs| - 1].edge
  }

  function Total(bs: seq<Bucket>): real
    requires bs != []
  {
    bs[|bs| - 1].count
  }

  function Quantile(bs: seq<Bucket>, q: real): Option<Edge> {
    if bs == [] || Total(bs) <= 0.0 then None else Some(Answer(bs, q * Total(bs)))
  }

  // ----------------------------------------------------------------- the function

  lemma InsertedIsSorted(bs: seq<Bucket>, k: nat, b: Bucket)
    requires Sorted(bs) && k <= |bs| && (k > 0 ==> Before(bs[k - 1], b)) && forall j :: k <= j < |bs| ==>
        Before(b, bs[j])
    ensures Sorted(bs[..k] + [b] + bs[k..])
  {
    forall j | 0 <= j < k ensures Before(bs[j], b) { assert j < k - 1 ==> Before(bs[j], bs[k - 1]); }
  }

  lemma InsertedAddsOne(bs: seq<Bucket>, k: nat, b: Bucket)
    requires k <= |bs|
    ensures multiset(bs[..k] + [b] + bs[k..]) == multiset(bs) + multiset{b}
  {
    assert bs == bs[..k] + bs[k..];
  }

  method Insert(bs: seq<Bucket>, b: Bucket) returns (r: seq<Bucket>)
    requires Sorted(bs)
    ensures Sorted(r) && multiset(r) == multiset(bs) + multiset{b}
  {
    var k: nat := |bs|;
    while k > 0 && !Before(bs[k - 1], b)
      invariant 0 <= k <= |bs| && forall j :: k <= j < |bs| ==> Before(b, bs[j])
    {
      k := k - 1;
    }
    r := bs[..k] + [b] + bs[k..];
    InsertedIsSorted(bs, k, b);
    InsertedAddsOne(bs, k, b);
  }

  /** The sorted list of the buckets. */
  ghost predicate SortedFrom(bs: seq<Bucket>, buckets: seq<Bucket>) {
    Sorted(bs) && multiset(bs) == multiset(buckets)
  }

  /** `sorted(buckets)`. */
  method Sort(buckets: seq<Bucket>) returns (bs: seq<Bucket>)
    ensures SortedFrom(bs, buckets)
  {
    bs := [];
    for n := 0 to |buckets|
      invariant Sorted(bs) && multiset(bs) == multiset(buckets[..n])
    {
      assert buckets[..n + 1] == buckets[..n] + [buckets[n]];
      bs := Insert(bs, buckets[n]);
    }
    assert buckets[..|buckets|] == buckets;
  }

  /** The walk with the previous edge and count. */
  method Walk(bs: seq<Bucket>, target: real) returns (r: Edge)
    requires bs != [] && Sorted(bs)
    ensures r == Answer(bs, target)
  {
    var prevEdge, prevCount := Finite(0.0), 0.0;
    for i := 0 to |bs|
      invariant prevEdge == PrevEdge(bs, i) && prevCount == PrevCount(bs, i)
      invariant Hit(bs, target, 0) == Hit(bs, target, i)
    {
      var edge, count := bs[i].edge, bs[i].count;
      if count >= target {
        if edge.Infinite? { return prevEdge; }
        var span := count - prevCount;
        if span <= 0.0 { return edge; }
        assert i > 0 ==> Before(bs[i - 1], bs[i]);
        return Finite(Interpolate(prevEdge.x, edge.x, target - prevCount, span));
      }
      prevEdge, prevCount := edge, count;
    }
    r := bs[|bs| - 1].edge;
  }

  /** `_histogram_quantile`: the answer on the one sorted list of the buckets given. */
  method Compute(buckets: seq<Bucket>, q: real) returns (r: Option<Edge>)
    ensures exists bs :: SortedFrom(bs, buckets) && r == Quantile(bs, q)
  {
    var bs := Sort(buckets);
    assert SortedFrom(bs, buckets);
    if bs == [] || Total(bs) <= 0.0 { return None; }
    var target := q * Total(bs);
    var answer := Walk(bs, target);
    r := Some(answer);
    assert r == Quantile(bs, q);
  }

  lemma HeadsAgree(a: seq<Bucket>, b: seq<Bucket>)
    requires Sorted(a) && Sorted(b) && multiset(a) == multiset(b) && a != [] && b != []
    ensures a[0] == b[0]
  {
    assert a[0] in multiset(b) && b[0] in multiset(a);
    var i :| 0 <= i < |b| && b[i] == a[0];
    var j :| 0 <= j < |a| && a[j] == b[0];
    assert i == 0 || Before(b[0], b[i]);
    assert j == 0 || Before(a[0], a[j]);
  }

  /** Only one list is sorted and has given buckets, so the order they came in does not matter. */
  lemma {:induction false} SortedIsUnique(a: seq<Bucket>, b: seq<Bucket>)
    requires SortedFrom(a, b) && Sorted(b)
    ensures a == b
  {
    assert |multiset(a)| == |a| && |multiset(b)| == |b|;
    if |a| > 0 {
      HeadsAgree(a, b);
      assert a == [a[0]] + a[1..] && b == [b[0]] + b[1..];
      assert multiset(a[1..]) == multiset(a) - multiset{a[0]} && multiset(b[1..]) == multiset(b) - multiset{b[0]};
      SortedIsUnique(a[1..], b[1..]);
    }
  }

  // --------------------------------------------------------- what the answer is

  /** There is no quantile of no buckets, or of buckets that hold nothing. */
  lemma NoQuantileOfNothing(bs: seq<Bucket>, q: real)
    ensures Quantile(bs, q).None? <==> bs == [] || bs[|bs| - 1].count <= 0.0
  {
  }

  /** The first bucket whose count reaches `target` is the k-th. */
  ghost predicate Reached(bs: seq<Bucket>, target: real, k: nat) {
    k < |bs| && bs[k].count >= target && forall j :: 0 <= j < k ==> bs[j].count < target
  }

  lemma HitIsTheReached(bs: seq<Bucket>, target: real, k: nat)
    requires Reached(bs, target, k)
    ensures Hit(bs, target, 0) == k
  {
  }

  /**
   The answer divides its bucket as the target divides the bucket's count: with the edge and count before it,
   none being zero, (answer - edge before) : (edge - edge before) is (target - count before) : (count - count
   before). An infinite bucket answers the edge before it, and one that adds nothing its own edge.
   */
  ghost predicate DividesItsBucket(bs: seq<Bucket>, target: real, k: nat, r: Edge)
    requires k < |bs|
  {
    var b := bs[k];
    var edge, count := if k == 0 then Finite(0.0) else bs[k - 1].edge, if k == 0 then 0.0 else bs[k - 1].count;
    if b.edge.Infinite? then r == edge
    else if b.count <= count then r == b.edge
    else edge.Finite? && r.Finite? && (r.x - edge.x) * (b.count - count) == (b.edge.x - edge.x) * (target - count)
  }

  lemma InsideDivides(bs: seq<Bucket>, target: real, k: nat)
    requires Sorted(bs) && k < |bs|
    ensures DividesItsBucket(bs, target, k, Inside(bs, target, k))
  {
    hide Interpolate;
    assert k > 0 ==> Before(bs[k - 1], bs[k]);
    if bs[k].edge.Finite? && bs[k].count > PrevCount(bs, k) {
      InterpolatesLinearly(PrevEdge(bs, k).x, bs[k].edge.x, target - PrevCount(bs, k), bs[k].count - PrevCount(bs, k));
    }
  }

  /** The quantile is the division of the first bucket whose count reaches q times the last count. */
  lemma QuantileInterpolates(bs: seq<Bucket>, q: real, k: nat)
    requires Sorted(bs) && bs != [] && bs[|bs| - 1].count > 0.0
    requires Reached(bs, q * bs[|bs| - 1].count, k)
    ensures Quantile(bs, q).Some? && DividesItsBucket(bs, q * bs[|bs| - 1].count, k, Quantile(bs, q).value)
  {
    hide DividesItsBucket, Answer;
    var target := q * bs[|bs| - 1].count;
    assert target == q * Total(bs);
    assert Quantile(bs, q) == Some(Answer(bs, target));
    AnswerDivides(bs, target, k);
  }

  lemma AnswerDivides(bs: seq<Bucket>, target: real, k: nat)
    requires Sorted(bs) && bs != [] && Reached(bs, target, k)
    ensures DividesItsBucket(bs, target, k, Answer(bs, target))
  {
    hide DividesItsBucket, Inside;
    HitIsTheReached(bs, target, k);
    InsideDivides(bs, target, k);
  }

  lemma InterpolatesLinearly(from: real, to: real, part: real, span: real)
    requires span > 0.0
    ensures (Interpolate(from, to, part, span) - from) * span == (to - from) * part
  {
  }

  /** Where no count reaches the target, the last edge. */
  lemma BeyondEveryBucket(bs: seq<Bucket>, q: real)
    requires bs != [] && bs[|bs| - 1].count > 0.0
    requires forall j :: 0 <= j < |bs| ==> bs[j].count < q * bs[|bs| - 1].count
    ensures Quantile(bs, q) == Some(bs[|bs| - 1].edge)
  {
    hide Inside;
  }

  // ------------------------------------------------------------------- histograms

  /** Edges that are not negative, in order, only the last infinite; counts that only grow, to something. */
  ghost predicate Histogram(bs: seq<Bucket>) {
    && bs != [] && Total(bs) > 0.0 && bs[0].count >= 0.0
    && (forall i :: 0 <= i < |bs| - 1 ==> bs[i].edge.Finite?)
    && (forall i :: 0 <= i < |bs| && bs[i].edge.Finite? ==> bs[i].edge.x >= 0.0)
    && (forall i, j :: 0 <= i < j < |bs| && bs[j].edge.Finite? ==> bs[i].edge.x <= bs[j].edge.x)
    && (forall i, j :: 0 <= i < j < |bs| ==> bs[i].count <= bs[j].count)
  }

  /** The largest finite edge, nothing when there is none. */
  function Largest(bs: seq<Bucket>): Edge
    requires bs != []
  {
    if bs[|bs| - 1].edge.Finite? then bs[|bs| - 1].edge else PrevEdge(bs, |bs| - 1)
  }

  lemma TargetInRange(total: real, q: real)
    requires total > 0.0 && 0.0 <= q <= 1.0
    ensures 0.0 <= q * total <= total
  {
  }

  /** The loop returns before it falls through. */
  lemma TheLoopReturns(bs: seq<Bucket>, q: real)
    requires Histogram(bs) && 0.0 <= q <= 1.0
    ensures Hit(bs, q * Total(bs), 0) < |bs|
  {
    TargetInRange(Total(bs), q);
  }

  /** Interpolation stays between its ends, meets the far one only with the whole part, and grows with the part. */
  lemma Between(from: real, to: real, part: real, span: real)
    requires from <= to && 0.0 <= part <= span && span > 0.0
    ensures from <= Interpolate(from, to, part, span) <= to
    ensures from < to ==> (Interpolate(from, to, part, span) == to <==> part == span)
    ensures from < to ==> (Interpolate(from, to, part, span) == from <==> part == 0.0)
  {
    var w, f := to - from, part / span;
    assert f * span == part;
    Fraction(part, span, f);
    assert w * part / span == w * f;
    Scale(w, f);
  }

  lemma Fraction(part: real, span: real, f: real)
    requires 0.0 <= part <= span && span > 0.0 && f * span == part
    ensures 0.0 <= f <= 1.0 && (f == 1.0 <==> part == span) && (f == 0.0 <==> part == 0.0)
  {
    assert f < 0.0 ==> f * span < 0.0;
    assert f > 1.0 ==> f * span > span;
  }

  lemma Scale(w: real, f: real)
    requires 0.0 <= w && 0.0 <= f <= 1.0
    ensures 0.0 <= w * f <= w && (w > 0.0 ==> (w * f == w <==> f == 1.0) && (w * f == 0.0 <==> f == 0.0))
  {
    if w > 0.0 && f < 1.0 { assert w * f < w; }
  }

  lemma Grows(from: real, to: real, part: real, part': real, span: real)
    requires from <= to && part <= part' && span > 0.0
    ensures Interpolate(from, to, part, span) <= Interpolate(from, to, part', span)
  {
    var w := to - from;
    assert w * part <= w * part';
    Divide(w * part, w * part', span);
  }

  lemma Divide(a: real, b: real, span: real)
    requires a <= b && span > 0.0
    ensures a / span <= b / span
  {
  }

  /** A bucket's answer lies in the bucket. */
  lemma InsideTheBucket(bs: seq<Bucket>, target: real)
    requires Histogram(bs) && target >= 0.0 && Hit(bs, target, 0) < |bs|
    ensures var i := Hit(bs, target, 0); var a := Inside(bs, target, i);
            && PrevEdge(bs, i).Finite? && a.Finite? && 0.0 <= PrevEdge(bs, i).x <= a.x
            && (bs[i].edge.Finite? ==> a.x <= bs[i].edge.x) && (bs[i].edge.Infinite? ==> a == PrevEdge(bs, i))
  {
    var i := Hit(bs, target, 0);
    var span := bs[i].count - PrevCount(bs, i);
    if i > 0 { assert bs[i - 1].count < target; }
    if bs[i].edge.Finite? && span > 0.0 { Between(PrevEdge(bs, i).x, bs[i].edge.x, target - PrevCount(bs, i), span); }
  }

  /** The quantile of a histogram is a number between nothing and the largest finite edge. */
  lemma QuantileIsInRange(bs: seq<Bucket>, q: real)
    requires Histogram(bs) && 0.0 <= q <= 1.0
    ensures Largest(bs).Finite?
    ensures var r := Quantile(bs, q); r.Some? && r.value.Finite? && 0.0 <= r.value.x <= Largest(bs).x
  {
    TheLoopReturns(bs, q);
    TargetInRange(Total(bs), q);
    InsideTheBucket(bs, q * Total(bs));
  }

  lemma {:induction false} HitsGrow(bs: seq<Bucket>, t: real, t': real, k: nat)
    requires t <= t' && k <= |bs|
    ensures Hit(bs, t, k) <= Hit(bs, t', k)
    decreases |bs| - k
  {
    if k < |bs| && bs[k].count < t { HitsGrow(bs, t, t', k + 1); }
  }

  lemma AnswersGrow(bs: seq<Bucket>, t: real, t': real)
    requires Histogram(bs) && 0.0 <= t <= t' && Hit(bs, t', 0) < |bs|
    ensures Hit(bs, t, 0) <= Hit(bs, t', 0)
    ensures Answer(bs, t).Finite? && Answer(bs, t').Finite? && Answer(bs, t).x <= Answer(bs, t').x
  {
    var i, i' := Hit(bs, t, 0), Hit(bs, t', 0);
    HitsGrow(bs, t, t', 0);
    InsideTheBucket(bs, t);
    InsideTheBucket(bs, t');
    if i == i' {
      var span := bs[i].count - PrevCount(bs, i);
      if bs[i].edge.Finite? && span > 0.0 {
        Grows(PrevEdge(bs, i).x, bs[i].edge.x, t - PrevCount(bs, i), t' - PrevCount(bs, i), span);
      }
    } else {
      assert bs[i].edge.x <= bs[i' - 1].edge.x;
    }
  }

  lemma TargetsGrow(total: real, q: real, q': real)
    requires total > 0.0 && 0.0 <= q <= q'
    ensures 0.0 <= q * total <= q' * total
  {
  }

  /** The two targets, without the products they come from. */
  lemma Targets(bs: seq<Bucket>, q: real, q': real) returns (t: real, t': real)
    requires Histogram(bs) && 0.0 <= q <= q' <= 1.0
    ensures 0.0 <= t <= t' <= Total(bs)
    ensures Quantile(bs, q) == Some(Answer(bs, t)) && Quantile(bs, q') == Some(Answer(bs, t'))
  {
    t, t' := q * Total(bs), q' * Total(bs);
    TargetsGrow(Total(bs), q, q');
    TargetInRange(Total(bs), q');
  }

  lemma {:induction false} LastBucketHolds(bs: seq<Bucket>, target: real, k: nat)
    requires bs != [] && target <= Total(bs) && k < |bs|
    ensures Hit(bs, target, k) < |bs|
    decreases |bs| - k
  {
    if k < |bs| - 1 { LastBucketHolds(bs, target, k + 1); }
  }

  /** A higher quantile is never a smaller number. */
  lemma QuantilesGrow(bs: seq<Bucket>, q: real, q': real)
    requires Histogram(bs) && 0.0 <= q <= q' <= 1.0
    ensures var r, r' := Quantile(bs, q), Quantile(bs, q');
            r.Some? && r'.Some? && r.value.Finite? && r'.value.Finite? && r.value.x <= r'.value.x
  {
    var t, t' := Targets(bs, q, q');
    LastBucketHolds(bs, t', 0);
    AnswersGrow(bs, t, t');
  }

  /** The target is bucket j's count, and no earlier bucket reaches it. */
  predicate CountMet(bs: seq<Bucket>, target: real, j: nat)
    requires j < |bs|
  {
    target == bs[j].count && (j == 0 || bs[j - 1].count < target)
  }

  /** The target is beyond every finite bucket, of which j is the last. */
  predicate BeyondTheLast(bs: seq<Bucket>, target: real, j: nat)
    requires j < |bs|
  {
    j == |bs| - 2 && bs[|bs| - 1].edge.Infinite? && bs[j].count < target
  }

  /** Bucket j is the first to hold the target, and no wider than a point. */
  predicate Flat(bs: seq<Bucket>, target: real, j: nat)
    requires j < |bs|
  {
    target <= bs[j].count && (j == 0 || bs[j - 1].count < target) && PrevEdge(bs, j) == bs[j].edge
  }

  /** The target is where bucket j answers with its edge. */
  predicate AtItsEdge(bs: seq<Bucket>, target: real, j: nat)
    requires j < |bs|
  {
    CountMet(bs, target, j) || BeyondTheLast(bs, target, j) || Flat(bs, target, j)
  }

  lemma FirstToReach(bs: seq<Bucket>, target: real, i: nat, j: nat)
    requires Histogram(bs) && i == Hit(bs, target, 0) < |bs| && j < |bs|
    requires target <= bs[j].count && (j == 0 || bs[j - 1].count < target)
    ensures j == i
  {
    forall k | i <= k < |bs| ensures target <= bs[k].count {}
  }

  /** What the bucket that holds the target answers at its two ends. */
  lemma EndsOfTheBucket(bs: seq<Bucket>, target: real, i: nat)
    requires Histogram(bs) && target >= 0.0 && i == Hit(bs, target, 0) < |bs| && bs[i].edge.Finite?
    ensures PrevEdge(bs, i).Finite? && Answer(bs, target).Finite?
    ensures PrevEdge(bs, i).x <= Answer(bs, target).x <= bs[i].edge.x
    ensures Answer(bs, target) == bs[i].edge <==> CountMet(bs, target, i) || Flat(bs, target, i)
    ensures Answer(bs, target) == PrevEdge(bs, i) ==> i == 0 || Flat(bs, target, i)
  {
    InsideTheBucket(bs, target);
    var span := bs[i].count - PrevCount(bs, i);
    if span > 0.0 { Between(PrevEdge(bs, i).x, bs[i].edge.x, target - PrevCount(bs, i), span); }
  }

  /** An edge with a target at it is the answer. */
  lemma AtItsEdgeAnswersIt(bs: seq<Bucket>, target: real, j: nat)
    requires Histogram(bs) && target >= 0.0 && Hit(bs, target, 0) < |bs|
    requires j < |bs| && bs[j].edge.Finite? && AtItsEdge(bs, target, j)
    ensures Answer(bs, target) == bs[j].edge
  {
    var i := Hit(bs, target, 0);
    if BeyondTheLast(bs, target, j) {
      forall k | i <= k < |bs| ensures target <= bs[k].count {}
      InsideTheBucket(bs, target);
    } else {
      FirstToReach(bs, target, i, j);
      EndsOfTheBucket(bs, target, i);
    }
  }

  /** And an answer that is an edge is one the target is at, that edge's own or one tied with it. */
  lemma AnEdgeAnsweredIsMet(bs: seq<Bucket>, target: real, j: nat) returns (m: nat)
    requires Histogram(bs) && target >= 0.0 && Hit(bs, target, 0) < |bs|
    requires j < |bs| && bs[j].edge.Finite? && Answer(bs, target) == bs[j].edge
    ensures m < |bs| && bs[m].edge == bs[j].edge && AtItsEdge(bs, target, m)
  {
    var i := Hit(bs, target, 0);
    if bs[i].edge.Finite? {
      EndsOfTheBucket(bs, target, i);
      assert j < i ==> bs[j].edge.x <= bs[i - 1].edge.x;
      m := i;
    } else {
      InsideTheBucket(bs, target);
      m := i - 1;
    }
  }

  /**
   The quantile is a bucket's finite edge exactly when the target q * total is at that edge: it is the
   count of a bucket there and above the one before; or, with an infinite bucket, it lies beyond the
   last finite one; or the bucket that holds it is only a point wide. At q = 0 an empty first bucket
   answers with its edge.
   */
  lemma QuantileIsAnEdgeExactly(bs: seq<Bucket>, q: real, j: nat)
    requires Histogram(bs) && 0.0 <= q <= 1.0 && j < |bs| && bs[j].edge.Finite?
    ensures Quantile(bs, q) == Some(bs[j].edge) <==>
              exists m :: 0 <= m < |bs| && bs[m].edge == bs[j].edge && AtItsEdge(bs, q * Total(bs), m)
  {
    var target := q * Total(bs);
    TheLoopReturns(bs, q);
    TargetInRange(Total(bs), q);
    if Answer(bs, target) == bs[j].edge {
      var m := AnEdgeAnsweredIsMet(bs, target, j);
    } else if m :| 0 <= m < |bs| && bs[m].edge == bs[j].edge && AtItsEdge(bs, target, m) {
      AtItsEdgeAnswersIt(bs, target, m);
    }
  }

  /** Edges that only rise, from above nothing. */
  ghost predicate Proper(bs: seq<Bucket>) {
    && Histogram(bs) && (bs[0].edge.Finite? ==> bs[0].edge.x > 0.0)
    && forall i, j :: 0 <= i < j < |bs| && bs[j].edge.Finite? ==> bs[i].edge.x < bs[j].edge.x
  }

  /** On edges that only rise, the edge's own count is the one met. */
  lemma RisingEdgesExactly(bs: seq<Bucket>, q: real, j: nat)
    requires Proper(bs) && 0.0 <= q <= 1.0 && j < |bs| && bs[j].edge.Finite?
    ensures Quantile(bs, q) == Some(bs[j].edge) <==>
              CountMet(bs, q * Total(bs), j) || BeyondTheLast(bs, q * Total(bs), j)
  {
    QuantileIsAnEdgeExactly(bs, q, j);
    forall a, b | 0 <= a < b < |bs| && bs[b].edge.Finite? ensures bs[a].edge != bs[b].edge {}
    forall m | 0 <= m < |bs| && bs[m].edge == bs[j].edge ensures m == j && PrevEdge(bs, m) != bs[m].edge {}
  }
}
