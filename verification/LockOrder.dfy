/**
 Row locks taken in one order. Any number of transactions each run a list of lock requests, holding
 what they are granted until they commit. If every transaction asks for new rows in ascending order,
 endpoint rows before device rows, no run reaches a circular wait, and somebody can always go on.
 */
module LockOrder {
  import opened Wrappers

  /** A row a transaction can lock: of `endpoint_state`, or of `device_state`. */
  datatype Lock = Endpoint(id: int) | Device(id: int)

  predicate Below(a: Lock, b: Lock) {
    (a.Endpoint? && b.Device?) || (a.Endpoint? == b.Endpoint? && a.id < b.id)
  }

  /** New rows are asked for in ascending order; a row asked for before may be asked for again at any time. */
  ghost predicate Ordered(program: seq<Lock>) {
    forall i, j :: 0 <= i < j < |program| ==> Below(program[i], program[j]) || program[j] in program[..j]
  }

  type TxnId = int

  /** A transaction: what it asks for, how much of that it has been granted, and whether it has ended. */
  datatype Txn = Txn(program: seq<Lock>, granted: nat, ended: bool)

  type System = map<TxnId, Txn>

  predicate Holds(t: Txn, l: Lock) {
    !t.ended && t.granted <= |t.program| && l in t.program[..t.granted]
  }

  /** Transaction i is kept waiting by transaction j. */
  predicate WaitsFor(s: System, i: TxnId, j: TxnId) {
    i in s && j in s && i != j && !s[i].ended && s[i].granted < |s[i].program| &&
      Holds(s[j], s[i].program[s[i].granted])
  }

  predicate CanBeGranted(s: System, i: TxnId) {
    i in s && !s[i].ended && s[i].granted < |s[i].program| && forall j :: j in s ==> !WaitsFor(s, i, j)
  }

  predicate CanCommit(s: System, i: TxnId) {
    i in s && !s[i].ended && s[i].granted == |s[i].program|
  }

  ghost predicate Next(s: System, s': System) {
    exists i ::
      (CanBeGranted(s, i) && s' == s[i := s[i].(granted := s[i].granted + 1)]) ||
      (CanCommit(s, i) && s' == s[i := s[i].(ended := true)])
  }

  /** Nothing granted yet, and every program in order. */
  ghost predicate Starts(s: System) {
    forall i :: i in s ==> s[i].granted == 0 && !s[i].ended && Ordered(s[i].program)
  }

  ghost predicate Run(trace: seq<System>) {
    |trace| > 0 && Starts(trace[0]) && forall n :: 0 <= n < |trace| - 1 ==> Next(trace[n], trace[n + 1])
  }

  // ------------------------------------------------------------------ what every run keeps

  /** No row is locked twice over. */
  ghost predicate Exclusive(s: System) {
    forall i, j, l :: i in s && j in s && Holds(s[i], l) && Holds(s[j], l) ==> i == j
  }

  ghost predicate Disciplined(s: System) {
    forall i :: i in s ==> s[i].granted <= |s[i].program| && Ordered(s[i].program)
  }

  lemma GrantHolds(t: Txn, l: Lock)
    requires !t.ended && t.granted < |t.program|
    ensures Holds(t.(granted := t.granted + 1), l) <==> Holds(t, l) || t.program[t.granted] == l
  {
    assert t.program[..t.granted + 1] == t.program[..t.granted] + [t.program[t.granted]];
  }

  lemma NextKeepsExclusive(s: System, s': System)
    requires Exclusive(s) && Disciplined(s) && Next(s, s')
    ensures Exclusive(s') && Disciplined(s')
  {
    var i :|
      (CanBeGranted(s, i) && s' == s[i := s[i].(granted := s[i].granted + 1)]) ||
      (CanCommit(s, i) && s' == s[i := s[i].(ended := true)]);
    if CanBeGranted(s, i) {
      var wanted := s[i].program[s[i].granted];
      forall j | j in s && j != i ensures !Holds(s[j], wanted) { assert !WaitsFor(s, i, j); }
      forall l ensures Holds(s'[i], l) <==> Holds(s[i], l) || l == wanted { GrantHolds(s[i], l); }
    }
  }

  lemma {:induction false} RunKeepsExclusive(trace: seq<System>, n: nat)
    requires Run(trace) && n < |trace|
    ensures Exclusive(trace[n]) && Disciplined(trace[n])
  {
    if n > 0 {
      RunKeepsExclusive(trace, n - 1);
      NextKeepsExclusive(trace[n - 1], trace[n - 1 + 1]);
    }
  }

  // ------------------------------------------------------------------------ no circles

  /** What a kept-waiting transaction holds is below what it waits for. */
  lemma WaitsClimb(s: System, i: TxnId, j: TxnId, k: TxnId)
    requires Exclusive(s) && Disciplined(s) && WaitsFor(s, i, j) && WaitsFor(s, j, k)
    ensures Below(s[i].program[s[i].granted], s[j].program[s[j].granted])
  {
    var t, l := s[j], s[i].program[s[i].granted];
    var m := t.program[t.granted];
    assert Holds(s[k], m) && !Holds(s[j], m);
    var h :| 0 <= h < t.granted && t.program[h] == l;
  }

  /** Each transaction of `w` is kept waiting by the next. */
  ghost predicate WaitChain(s: System, w: seq<TxnId>) {
    |w| > 1 && forall n :: 0 <= n < |w| - 1 ==> WaitsFor(s, w[n], w[n + 1])
  }

  function Wanted(s: System, i: TxnId): Lock
    requires i in s && s[i].granted < |s[i].program|
  {
    s[i].program[s[i].granted]
  }

  lemma {:induction false} ChainClimbs(s: System, w: seq<TxnId>, n: nat)
    requires Exclusive(s) && Disciplined(s) && WaitChain(s, w) && 0 < n < |w| - 1
    ensures WaitsFor(s, w[0], w[1]) && WaitsFor(s, w[n], w[n + 1])
    ensures Below(Wanted(s, w[0]), Wanted(s, w[n]))
  {
    assert WaitsFor(s, w[0], w[0 + 1]) && WaitsFor(s, w[n], w[n + 1]) && WaitsFor(s, w[n - 1], w[n - 1 + 1]);
    WaitsClimb(s, w[n - 1], w[n], w[n + 1]);
    if n > 1 { ChainClimbs(s, w, n - 1); }
  }

  /** No reachable state has a circular wait. */
  lemma NoCircularWait(trace: seq<System>, n: nat, w: seq<TxnId>)
    requires Run(trace) && n < |trace| && WaitChain(trace[n], w)
    ensures w[0] != w[|w| - 1]
  {
    RunKeepsExclusive(trace, n);
    var s := trace[n];
    assert WaitsFor(s, w[0], w[0 + 1]);
    if w[0] == w[|w| - 1] {
      var last := |w| - 2;
      assert WaitsFor(s, w[last], w[last + 1]);
      WaitsClimb(s, w[last], w[last + 1], w[1]);
      if last > 0 { ChainClimbs(s, w, last); }
    }
  }

  // ------------------------------------------------------------------- somebody goes on

  ghost predicate Waiting(s: System, i: TxnId) {
    exists j :: WaitsFor(s, i, j)
  }

  /** Among some waiting transactions, one wants a row no other of them wants a higher one than. */
  lemma {:induction false} HighestWanted(s: System, ids: set<TxnId>) returns (top: TxnId)
    requires ids != {} && forall i :: i in ids ==> i in s && s[i].granted < |s[i].program|
    ensures top in ids && forall i :: i in ids ==> !Below(Wanted(s, top), Wanted(s, i))
  {
    var i := Member(ids);
    var rest := ids - {i};
    if rest == {} {
      top := i;
      assert ids == {i};
    } else {
      var t := HighestWanted(s, rest);
      top := if Below(Wanted(s, t), Wanted(s, i)) then i else t;
      assert ids == rest + {i};
    }
  }

  /** Whoever keeps the highest of the waiting waiting is not waiting. */
  lemma TheBlockerIsFree(s: System, top: TxnId, j: TxnId)
    requires Exclusive(s) && Disciplined(s) && WaitsFor(s, top, j)
    requires forall i, k :: WaitsFor(s, i, k) ==> !Below(Wanted(s, top), Wanted(s, i))
    ensures CanBeGranted(s, j) || CanCommit(s, j)
  {
    forall k ensures !WaitsFor(s, j, k) {
      if WaitsFor(s, j, k) { WaitsClimb(s, top, j, k); }
    }
  }

  lemma SomebodyIsFree(s: System, i: TxnId) returns (j: TxnId)
    requires Exclusive(s) && Disciplined(s) && i in s && !s[i].ended
    ensures CanBeGranted(s, j) || CanCommit(s, j)
  {
    var stuck := set x | x in s && Waiting(s, x);
    if i in stuck {
      var top := HighestWanted(s, stuck);
      j :| WaitsFor(s, top, j);
      forall x, k | WaitsFor(s, x, k) ensures !Below(Wanted(s, top), Wanted(s, x)) {
        var waiting := Waiting(s, x);
        assert waiting && x in stuck;
      }
      TheBlockerIsFree(s, top, j);
    } else {
      j := i;
      forall k ensures !WaitsFor(s, i, k) { var waiting := Waiting(s, i); assert !waiting; }
    }
  }

  /** In every reachable state with a transaction left, some transaction can be granted its next row or commit. */
  lemma SomebodyGoesOn(trace: seq<System>, n: nat, i: TxnId) returns (j: TxnId)
    requires Run(trace) && n < |trace| && i in trace[n] && !trace[n][i].ended
    ensures CanBeGranted(trace[n], j) || CanCommit(trace[n], j)
  {
    RunKeepsExclusive(trace, n);
    j := SomebodyIsFree(trace[n], i);
  }

  // -------------------------------------------------------------- one pass per collector

  /** Rows locked collector by collector, against a batch that takes them in order. */
  function PerCollector(): seq<Lock> {
    [Endpoint(5), Endpoint(9), Endpoint(1), Endpoint(3)]
  }

  function Batch(): seq<Lock> {
    [Endpoint(1), Endpoint(3), Endpoint(5), Endpoint(9)]
  }

  /** Without the order, three grants are enough for two transactions to wait for each other. */
  lemma PerCollectorPassesDeadlock() returns (trace: seq<System>)
    ensures !Ordered(PerCollector()) && Ordered(Batch())
    ensures |trace| == 5 && trace[0] == map[0 := Txn(PerCollector(), 0, false), 1 := Txn(Batch(), 0, false)]
    ensures forall n :: 0 <= n < |trace| - 1 ==> Next(trace[n], trace[n + 1])
    ensures WaitsFor(trace[4], 0, 1) && WaitsFor(trace[4], 1, 0)
  {
    var a, b := PerCollector(), Batch();
    trace := [
      map[0 := Txn(a, 0, false), 1 := Txn(b, 0, false)], map[0 := Txn(a, 1, false), 1 := Txn(b, 0, false)],
      map[0 := Txn(a, 2, false), 1 := Txn(b, 0, false)], map[0 := Txn(a, 2, false), 1 := Txn(b, 1, false)],
      map[0 := Txn(a, 2, false), 1 := Txn(b, 2, false)]];
    assert !Below(a[1], a[2]) && a[2] !in a[..2];
    assert CanBeGranted(trace[0], 0) && trace[1] == trace[0][0 := trace[0][0].(granted := 1)];
    assert CanBeGranted(trace[1], 0) && trace[2] == trace[1][0 := trace[1][0].(granted := 2)];
    assert CanBeGranted(trace[2], 1) && trace[3] == trace[2][1 := trace[2][1].(granted := 1)];
    assert CanBeGranted(trace[3], 1) && trace[4] == trace[3][1 := trace[3][1].(granted := 2)];
    assert a[..2][0] == Endpoint(5) && b[..2][0] == Endpoint(1);
    assert Holds(trace[4][1], a[2]) && Holds(trace[4][0], b[2]);
  }
}
