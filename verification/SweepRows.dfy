/**
 Every row after a sweep, read off the snapshots without the loops.

 `RowAfter` says what one alarm's row becomes: for whom it is folded or speaks goes by the rules of
 `RootRules` and by `SpeaksFor`, an election said of the rows. `SweptRowsAreThese` says that the two loops
 and the closing UPDATE leave exactly those rows, and `TheCountsAreThese` what the three counters count.
 */
module SweepRows {
  import opened Wrappers
  import opened CoolingTaxonomy
  import opened CoolingGraphs
  import opened RootChoice
  import opened AlarmTable
  import opened CoolingSweeps
  import R = RootRules
  import V = OneVoice

  // -------------------------------------------------------------- the snapshots

  function Rec(p: Plan, id: AlarmId): Record
    requires id in p.rows
  {
    RecordOf(id, p.rows[id], false)
  }

  /** The root either loop offers an alarm, and its tier; `R.SweepJudges` says which. */
  function Offer(p: Plan, id: AlarmId): Option<Root>
    requires id in p.rows
  {
    Judge(p, Rec(p, id), p.reps)
  }

  function KeyAt(p: Plan, id: AlarmId, root: AlarmId): RepKey
    requires id in p.rows
  {
    RepKey(root, RoomOf(p.g, p.rows[id].device), p.rows[id].alarmType)
  }

  /** An open alarm tied to a root that has cleared. */
  predicate LostItsRoot(p: Plan, id: AlarmId) {
    && id in p.rows && !p.rows[id].cleared && p.rows[id].l5.Some?
    && var root := p.rows[id].l5.value.root; root in p.rows && p.rows[root].cleared
  }

  /** It is offered another root than the one that cleared. */
  predicate Moves(p: Plan, id: AlarmId)
    requires LostItsRoot(p, id)
  {
    Offer(p, id).Some? && Offer(p, id).value.record.id != p.rows[id].l5.value.root
  }

  /** An open alarm in view, begun within the last two hours, that is offered a root. */
  predicate IsOffered(p: Plan, id: AlarmId) {
    && id in p.rows && !p.rows[id].cleared && !p.rows[id].isSymptom && !p.rows[id].shelved
    && p.now - p.rows[id].firstSeen <= 120 * R.MINUTE
    && Offer(p, id).Some?
  }

  /** A consequence graver than its root, or whose root has cleared. */
  predicate MaySpeak(a: Alarm, root: Record) {
    root.cleared || SeverityRank(a.severity) < SeverityRank(root.severity)
  }

  // ------------------------------------------------------------------ the election

  /** An alarm that lost its root would speak for it, or beside the root it moves to. */
  predicate OrphanAsks(p: Plan, id: AlarmId, k: RepKey) {
    LostItsRoot(p, id) &&
    if Moves(p, id) then
      var root := Offer(p, id).value.record; MaySpeak(p.rows[id], root) && k == KeyAt(p, id, root.id)
    else k == KeyAt(p, id, p.rows[id].l5.value.root)
  }

  predicate VisibleAsks(p: Plan, id: AlarmId, k: RepKey) {
    IsOffered(p, id) &&
    var root := Offer(p, id).value.record; MaySpeak(p.rows[id], root) && k == KeyAt(p, id, root.id)
  }

  /** The alarm in place i asks, and none of those that lost their root before it in the query's order does. */
  ghost predicate FirstOrphan(p: Plan, k: RepKey, i: int) {
    0 <= i < |p.orphans| && OrphanAsks(p, p.orphans[i].record.id, k) &&
    forall j :: 0 <= j < i ==> !OrphanAsks(p, p.orphans[j].record.id, k)
  }

  /** The alarm asks, and every other visible alarm that does began later. */
  ghost predicate OldestVisible(p: Plan, k: RepKey, id: AlarmId) {
    VisibleAsks(p, id, k) &&
    forall y :: VisibleAsks(p, y, k) && y != id ==>
      p.rows[id].firstSeen < p.rows[y].firstSeen || (p.rows[id].firstSeen == p.rows[y].firstSeen && id < y)
  }

  /**
   Who speaks for a root, room and type: whoever already did, or else the first alarm that lost its root to
   ask, or else the oldest visible one.
   */
  ghost predicate SpeaksFor(p: Plan, k: RepKey, id: AlarmId) {
    if k in p.reps then p.reps[k] == id
    else if exists i :: FirstOrphan(p, k, i) then exists i :: FirstOrphan(p, k, i) && p.orphans[i].record.id == id
    else OldestVisible(p, k, id)
  }

  // ---------------------------------------------------------------- the rows

  /** What an offered root writes on a row: the tie; and the fold unless the alarm speaks. */
  function Tied(a: Alarm, root: Root, speaks: bool, now: Time): Alarm {
    if speaks then a.(l5 := Some(Mark(root.record.id, root.tier, false, now)))
    else a.(isSymptom := true, rootCause := Some(root.record.id),
            l5 := Some(Mark(root.record.id, root.tier, true, now)))
  }

  /** The row once the alarms that lost their root have moved or spoken. */
  ghost function RowMoved(p: Plan, id: AlarmId): Alarm
    requires id in p.rows
  {
    var a := p.rows[id];
    if !LostItsRoot(p, id) then a
    else if Moves(p, id) then
      var root := Offer(p, id).value;
      var speaks := MaySpeak(a, root.record) && SpeaksFor(p, KeyAt(p, id, root.record.id), id);
      Tied(a.(isSymptom := false, rootCause := None), root, speaks, p.now)
    else
      var k := KeyAt(p, id, a.l5.value.root);
      if k !in p.reps && SpeaksFor(p, k, id)
      then a.(isSymptom := false, rootCause := None, l5 := Some(a.l5.value.(suppressed := false)))
      else a
  }

  ghost function RowAfter(p: Plan, id: AlarmId): Alarm
    requires id in p.rows
  {
    var a := p.rows[id];
    if a.cleared then
      if a.l5.None? then a
      else if a.l5.value.suppressed then a.(isSymptom := false, rootCause := None, l5 := None)
      else a.(l5 := None)
    else if !IsOffered(p, id) then RowMoved(p, id)
    else
      var root := Offer(p, id).value;
      var speaks := MaySpeak(a, root.record) && SpeaksFor(p, KeyAt(p, id, root.record.id), id);
      if speaks && id in p.reps.Values then RowMoved(p, id) else Tied(RowMoved(p, id), root, speaks, p.now)
  }

  // -------------------------------------------------------- the turns, by these rules

  /** Whoever speaks already, an alarm is offered the same root at the same tier. */
  lemma OfferIgnoresNames(p: Plan, id: AlarmId, reps: map<RepKey, AlarmId>)
    requires id in p.rows
    ensures var v := Judge(p, Rec(p, id), reps);
            v.Some? == Offer(p, id).Some? &&
            (v.Some? ==> v.value.record == Offer(p, id).value.record && v.value.tier == Offer(p, id).value.tier)
  {
    hide Choice;
  }

  lemma OfferIsTheChoice(p: Plan, id: AlarmId)
    requires id in p.rows
    ensures var c := Choice(p.g, p.fires, Rec(p, id), p.candidates);
            c.Some? == Offer(p, id).Some? && (c.Some? ==> c.value == Offer(p, id).value.record)
  {
    hide Choice;
  }

  /** What the loops are handed: at each place of the two lists, a row's own record. */
  ghost predicate Handed(p: Plan) {
    && (forall i :: 0 <= i < |p.orphans| ==>
          var id := p.orphans[i].record.id;
          LostItsRoot(p, id) && p.orphans[i] == Orphan(Rec(p, id), p.rows[id].l5.value.root))
    && (forall i, j :: 0 <= i < j < |p.orphans| ==> p.orphans[i].record.id != p.orphans[j].record.id)
    && (forall id :: LostItsRoot(p, id) ==> exists i :: 0 <= i < |p.orphans| && p.orphans[i].record.id == id)
    && (forall j :: 0 <= j < |p.visible| ==>
          var id := p.visible[j].id;
          id in p.rows && InView(p.rows[id]) && p.visible[j] == Rec(p, id))
    && (forall i, j :: 0 <= i < j < |p.visible| ==> Onset(p.visible[i], p.visible[j]))
    && (forall id :: id in p.rows && InView(p.rows[id]) ==> exists j :: 0 <= j < |p.visible| && p.visible[j].id == id)
  }

  predicate InView(a: Alarm) {
    !a.cleared && !a.isSymptom && !a.shelved
  }

  lemma FairPlansHand(p: Plan)
    requires FairPlan(p)
    ensures Handed(p)
  {
    hide WellDrawn, ListsCandidates, IsRepresentatives, FireRooms;
    forall id ensures LostItsRoot(p, id) <==> Orphaned(p.rows, id) {}
    forall j | 0 <= j < |p.visible|
      ensures var id := p.visible[j].id; id in p.rows && InView(p.rows[id]) && p.visible[j] == Rec(p, id)
    {
      assert p.visible[j] in p.visible;
    }
    forall id | id in p.rows && InView(p.rows[id]) ensures exists j :: 0 <= j < |p.visible| && p.visible[j].id == id {
      assert RecordOf(id, p.rows[id], false) in p.visible;
      var j :| 0 <= j < |p.visible| && p.visible[j] == RecordOf(id, p.rows[id], false);
      assert p.visible[j].id == id;
    }
  }

  lemma OrphanClaimByRule(p: Plan, o: Orphan, k: RepKey)
    requires LostItsRoot(p, o.record.id)
    requires o == Orphan(Rec(p, o.record.id), p.rows[o.record.id].l5.value.root)
    ensures V.IsFor(V.OrphanClaim(p, o), k) <==> OrphanAsks(p, o.record.id, k)
    ensures V.OrphanClaim(p, o).Some? ==> V.OrphanClaim(p, o).value.id == o.record.id
  {
    hide Choice, Offer;
    OfferIsTheChoice(p, o.record.id);
  }

  lemma VisibleClaimByRule(p: Plan, id: AlarmId, k: RepKey)
    requires id in p.rows && InView(p.rows[id])
    ensures V.IsFor(V.VisibleClaim(p, Rec(p, id)), k) <==> VisibleAsks(p, id, k)
    ensures V.VisibleClaim(p, Rec(p, id)).Some? ==> V.VisibleClaim(p, Rec(p, id)).value.id == id
  {
    hide Best, TakesPart, Offer;
    OfferIsTheChoice(p, id);
  }

  // ---------------------------------------------------- the election, by these rules

  lemma FirstOrphanIsFirst(p: Plan, k: RepKey, i: int)
    requires Handed(p) && 0 <= i < |p.orphans|
    ensures FirstOrphan(p, k, i) <==> V.FirstFor(V.Claims(p), k, i)
  {
    hide Handed, OrphanAsks, Offer, LostItsRoot, V.OrphanClaim, V.VisibleClaim;
    forall j | 0 <= j < |p.orphans|
      ensures V.IsFor(V.Claims(p)[j], k) <==> OrphanAsks(p, p.orphans[j].record.id, k)
    {
      OrphanAsksInPlace(p, k, j);
    }
  }

  lemma OrphanAsksInPlace(p: Plan, k: RepKey, j: nat)
    requires Handed(p) && j < |p.orphans|
    ensures j < |V.Claims(p)|
    ensures V.IsFor(V.Claims(p)[j], k) <==> OrphanAsks(p, p.orphans[j].record.id, k)
    ensures V.Claims(p)[j].Some? ==> V.Claims(p)[j].value.id == p.orphans[j].record.id
  {
    hide OrphanAsks, Offer, V.OrphanClaim, V.VisibleClaim;
    V.ClaimsInOrder(p, V.Claims(p), j);
    OrphanClaimByRule(p, p.orphans[j], k);
  }

  lemma VisibleAsksInPlace(p: Plan, k: RepKey, j: nat)
    requires Handed(p) && j < |p.visible|
    ensures |p.orphans| + j < |V.Claims(p)|
    ensures V.IsFor(V.Claims(p)[|p.orphans| + j], k) <==> VisibleAsks(p, p.visible[j].id, k)
    ensures V.Claims(p)[|p.orphans| + j].Some? ==> V.Claims(p)[|p.orphans| + j].value.id == p.visible[j].id
  {
    hide VisibleAsks, Offer, V.OrphanClaim, V.VisibleClaim;
    V.ClaimsInOrder(p, V.Claims(p), j);
    VisibleClaimByRule(p, p.visible[j].id, k);
  }

  lemma AskersAreInView(p: Plan, k: RepKey, id: AlarmId)
    requires VisibleAsks(p, id, k)
    ensures id in p.rows && InView(p.rows[id])
  {
  }

  /** No alarm that lost its root asks. */
  ghost predicate NoneAsks(p: Plan, k: RepKey) {
    forall i {:trigger p.orphans[i]} :: 0 <= i < |p.orphans| ==> !OrphanAsks(p, p.orphans[i].record.id, k)
  }

  /** With no orphan asking, the first claim is the oldest visible one's. */
  lemma OldestIsFirst(p: Plan, k: RepKey, j: nat)
    requires Handed(p) && j < |p.visible| && NoneAsks(p, k)
    ensures V.FirstFor(V.Claims(p), k, |p.orphans| + j) <==> OldestVisible(p, k, p.visible[j].id)
  {
    hide OrphanAsks, VisibleAsks, Offer, LostItsRoot, V.OrphanClaim, V.VisibleClaim, V.Claims;
    var claims, n := V.Claims(p), |p.orphans|;
    CountClaims(p);
    forall y | VisibleAsks(p, y, k) ensures y in p.rows && InView(p.rows[y]) { AskersAreInView(p, k, y); }
    forall i | 0 <= i < n ensures !V.IsFor(claims[i], k) { OrphanAsksInPlace(p, k, i); }
    forall i | 0 <= i < |p.visible|
      ensures V.IsFor(claims[n + i], k) <==> VisibleAsks(p, p.visible[i].id, k)
    {
      VisibleAsksInPlace(p, k, i);
    }
    if V.FirstFor(claims, k, n + j) {
      forall y | y in p.rows && VisibleAsks(p, y, k) && y != p.visible[j].id
        ensures Onset(p.visible[j], Rec(p, y))
      {
        var i :| 0 <= i < |p.visible| && p.visible[i].id == y;
        assert V.IsFor(claims[n + i], k);
        assert i > j;
      }
    }
    if OldestVisible(p, k, p.visible[j].id) {
      forall i | 0 <= i < j ensures !VisibleAsks(p, p.visible[i].id, k) { assert Onset(p.visible[i], p.visible[j]); }
      forall m | 0 <= m < n + j ensures !V.IsFor(claims[m], k) {
        if m >= n {
          var i := m - n;
          assert !VisibleAsks(p, p.visible[i].id, k);
          assert n + i == m && !V.IsFor(claims[n + i], k);
        }
      }
    }
  }

  lemma CountClaims(p: Plan)
    ensures |V.Claims(p)| == |p.orphans| + |p.visible|
  {
  }

  lemma FirstOrphanIsUnique(p: Plan, k: RepKey, i: int, j: int)
    requires FirstOrphan(p, k, i) && FirstOrphan(p, k, j)
    ensures i == j
  {
    hide OrphanAsks;
  }

  lemma NoOrphanAsks(p: Plan, k: RepKey, i: nat)
    requires i < |p.orphans| && OrphanAsks(p, p.orphans[i].record.id, k)
    ensures exists j :: FirstOrphan(p, k, j)
    decreases i
  {
    hide OrphanAsks;
    if j :| 0 <= j < i && OrphanAsks(p, p.orphans[j].record.id, k) {
      NoOrphanAsks(p, k, j);
    } else {
      assert FirstOrphan(p, k, i);
    }
  }

  lemma ElectedOrphan(p: Plan, k: RepKey, i: int)
    requires Handed(p) && k !in p.reps && FirstOrphan(p, k, i)
    ensures V.Elected(p, k) == Some(p.orphans[i].record.id)
  {
    hide Handed, OrphanAsks, V.Elected, V.Claims, V.FirstFor;
    assert 0 <= i < |p.orphans|;
    FirstOrphanIsFirst(p, k, i);
    OrphanAsksInPlace(p, k, i);
    V.FirstIsElected(p, V.Claims(p), k, i);
    FirstIsFor(V.Claims(p), k, i);
  }

  lemma FirstIsFor(claims: seq<Option<V.Claim>>, k: RepKey, i: int)
    requires V.FirstFor(claims, k, i)
    ensures 0 <= i < |claims| && V.IsFor(claims[i], k) && claims[i].Some?
  {
  }

  lemma PlaceInView(p: Plan, k: RepKey, id: AlarmId) returns (j: nat)
    requires Handed(p) && OldestVisible(p, k, id)
    ensures j < |p.visible| && p.visible[j].id == id
  {
    hide Offer, LostItsRoot;
    AskersAreInView(p, k, id);
    j :| 0 <= j < |p.visible| && p.visible[j].id == id;
  }

  lemma NoneAskedFirst(p: Plan, k: RepKey, i: int)
    requires Handed(p) && NoneAsks(p, k) && V.FirstFor(V.Claims(p), k, i)
    ensures |p.orphans| <= i < |p.orphans| + |p.visible| && V.Claims(p)[i].Some?
  {
    hide Handed, OrphanAsks, V.Claims;
    CountClaims(p);
    FirstIsFor(V.Claims(p), k, i);
    if i < |p.orphans| { OrphanAsksInPlace(p, k, i); assert false; }
  }

  lemma FirstVisibleIsElected(p: Plan, k: RepKey, i: int)
    requires Handed(p) && k !in p.reps && NoneAsks(p, k) && V.FirstFor(V.Claims(p), k, i)
    ensures 0 <= i - |p.orphans| < |p.visible|
    ensures OldestVisible(p, k, p.visible[i - |p.orphans|].id)
    ensures V.Elected(p, k) == Some(p.visible[i - |p.orphans|].id)
  {
    hide Handed, OldestVisible, V.Claims, V.FirstFor, V.Elected, OrphanAsks, VisibleAsks;
    NoneAskedFirst(p, k, i);
    OldestIsFirst(p, k, i - |p.orphans|);
    VisibleAsksInPlace(p, k, i - |p.orphans|);
    V.FirstIsElected(p, V.Claims(p), k, i);
  }

  lemma OldestIsUnique(p: Plan, k: RepKey, x: AlarmId, y: AlarmId)
    requires OldestVisible(p, k, x) && OldestVisible(p, k, y)
    ensures x == y
  {
    hide Offer;
  }

  lemma OldestClaims(p: Plan, k: RepKey, id: AlarmId) returns (i: int)
    requires Handed(p) && NoneAsks(p, k) && OldestVisible(p, k, id)
    ensures V.FirstFor(V.Claims(p), k, i)
  {
    hide Handed, OldestVisible, V.Claims, V.FirstFor, OrphanAsks;
    var j := PlaceInView(p, k, id);
    OldestIsFirst(p, k, j);
    i := |p.orphans| + j;
  }

  lemma ElectedVisible(p: Plan, k: RepKey, id: AlarmId)
    requires Handed(p) && k !in p.reps && NoneAsks(p, k)
    ensures OldestVisible(p, k, id) <==> V.Elected(p, k) == Some(id)
  {
    hide Handed, OldestVisible, NoneAsks, V.Claims, V.FirstFor;
    if OldestVisible(p, k, id) {
      var i := OldestClaims(p, k, id);
      FirstVisibleIsElected(p, k, i);
      OldestIsUnique(p, k, id, p.visible[i - |p.orphans|].id);
    } else if i :| V.FirstFor(V.Claims(p), k, i) {
      FirstVisibleIsElected(p, k, i);
    }
  }

  /** The election is the one the loops hold. */
  lemma TheElected(p: Plan, k: RepKey, id: AlarmId)
    requires Handed(p)
    ensures SpeaksFor(p, k, id) <==> V.Elected(p, k) == Some(id)
  {
    hide Handed, OrphanAsks, V.Claims, FirstOrphan, OldestVisible, V.FirstFor;
    if k !in p.reps {
      if i :| FirstOrphan(p, k, i) {
        ElectedOrphan(p, k, i);
        forall j | FirstOrphan(p, k, j) ensures j == i { FirstOrphanIsUnique(p, k, i, j); }
        InOrphans(p, k, i);
        if SpeaksFor(p, k, id) {
          var j :| FirstOrphan(p, k, j) && p.orphans[j].record.id == id;
          assert j == i;
        }
      } else {
        forall i {:trigger p.orphans[i]} | 0 <= i < |p.orphans| ensures !OrphanAsks(p, p.orphans[i].record.id, k) {
          if OrphanAsks(p, p.orphans[i].record.id, k) { NoOrphanAsks(p, k, i); assert false; }
        }
        ElectedVisible(p, k, id);
      }
    }
  }

  lemma InOrphans(p: Plan, k: RepKey, i: int)
    requires FirstOrphan(p, k, i)
    ensures 0 <= i < |p.orphans|
  {
  }

  // ------------------------------------------------------------- the first loop

  /** When an alarm that lost its root comes to its turn, the key it asks for is free just when it is to have it. */
  lemma FreeInTurn(p: Plan, i: nat, k: RepKey, reps: map<RepKey, AlarmId>)
    requires Handed(p) && i < |p.orphans| && OrphanAsks(p, p.orphans[i].record.id, k)
    requires reps == V.Filed(p.reps, V.Claims(p)[..i])
    ensures var id := p.orphans[i].record.id;
            && ((k in reps && reps[k] != id) <==> !SpeaksFor(p, k, id))
            && (k !in reps <==> k !in p.reps && SpeaksFor(p, k, id))
  {
    hide OrphanAsks, Offer, SpeaksFor, V.Elected, V.OrphanClaim, V.VisibleClaim, V.Filed, V.Claims, LostItsRoot;
    var claims, id := V.Claims(p), p.orphans[i].record.id;
    CountClaims(p);
    OrphanAsksInPlace(p, k, i);
    TheElected(p, k, id);
    V.SettledInTurn(p, claims, i, V.Claim(k, id), reps);
    V.FirstClaimIsNamed(p.reps, claims[..i], k);
    if k !in p.reps && k in reps {
      var j :| V.FirstFor(claims[..i], k, j);
      assert claims[..i][j] == claims[j];
      OrphanAsksInPlace(p, k, j);
      assert reps[k] == p.orphans[j].record.id;
    }
  }

  /** The verdict on an alarm that moves folds it unless it may speak and is the one to. */
  lemma MovedVerdict(p: Plan, i: nat, reps: map<RepKey, AlarmId>)
    requires Handed(p) && i < |p.orphans| && Moves(p, p.orphans[i].record.id)
    requires reps == V.Filed(p.reps, V.Claims(p)[..i])
    ensures var id := p.orphans[i].record.id;
            var v := Judge(p, p.orphans[i].record, reps);
            && v.Some? && v.value.record == Offer(p, id).value.record && v.value.tier == Offer(p, id).value.tier
            && (v.value.suppress <==>
                  !(MaySpeak(p.rows[id], v.value.record) && SpeaksFor(p, KeyAt(p, id, v.value.record.id), id)))
  {
    hide Choice, SpeaksFor, V.Filed, V.Claims, Offer;
    var id := p.orphans[i].record.id;
    var root := Offer(p, id).value.record;
    OfferIgnoresNames(p, id, reps);
    if MaySpeak(p.rows[id], root) {
      FreeInTurn(p, i, KeyAt(p, id, root.id), reps);
    }
  }

  lemma OrphanTurnByRule(p: Plan, i: nat, t: Tally)
    requires Handed(p) && i < |p.orphans| && t.reps == V.Filed(p.reps, V.Claims(p)[..i])
    requires p.orphans[i].record.id in t.rows && t.rows[p.orphans[i].record.id] == p.rows[p.orphans[i].record.id]
    ensures var id := p.orphans[i].record.id;
            OrphanStep(p, t, p.orphans[i]).rows == t.rows[id := RowMoved(p, id)]
  {
    hide Judge, SpeaksFor, V.Filed, V.Claims, Offer, MaySpeak;
    var id := p.orphans[i].record.id;
    var v := Judge(p, p.orphans[i].record, t.reps);
    OfferIgnoresNames(p, id, t.reps);
    if Moves(p, id) {
      MovedVerdict(p, i, t.reps);
    } else {
      FreeInTurn(p, i, KeyAt(p, id, p.rows[id].l5.value.root), t.reps);
    }
  }

  /** The rows once the alarms `seen` have had their turn: theirs by `after`, the rest as they were. */
  ghost predicate Turned(before: Rows, now: Rows, seen: set<AlarmId>, after: map<AlarmId, Alarm>) {
    now.Keys == before.Keys == after.Keys &&
    forall x :: x in before ==> now[x] == if x in seen then after[x] else before[x]
  }

  lemma TurnedOneMore(before: Rows, now: Rows, seen: set<AlarmId>, after: map<AlarmId, Alarm>, id: AlarmId)
    requires Turned(before, now, seen, after) && id in before
    ensures Turned(before, now[id := after[id]], seen + {id}, after)
  {
  }

  function OrphansSeen(p: Plan, n: nat): set<AlarmId>
    requires n <= |p.orphans|
  {
    set i | 0 <= i < n :: p.orphans[i].record.id
  }

  function VisibleSeen(p: Plan, n: nat): set<AlarmId>
    requires n <= |p.visible|
  {
    set j | 0 <= j < n :: p.visible[j].id
  }

  ghost function AllMoved(p: Plan): Rows {
    map id | id in p.rows :: RowMoved(p, id)
  }

  ghost function AllAfter(p: Plan): Rows {
    map id | id in p.rows :: RowAfter(p, id)
  }

  lemma OrphanInPlace(p: Plan, n: nat)
    requires Handed(p) && n < |p.orphans|
    ensures var id := p.orphans[n].record.id;
            id in p.rows && id !in OrphansSeen(p, n) && OrphansSeen(p, n + 1) == OrphansSeen(p, n) + {id}
  {
    hide Offer;
  }

  lemma {:induction false} OrphanRows(p: Plan, n: nat)
    requires Handed(p) && n <= |p.orphans|
    ensures Turned(p.rows, OrphanPass(p, n).rows, OrphansSeen(p, n), AllMoved(p))
  {
    hide Handed, RowMoved, V.Claims, V.Filed, OrphanStep;
    if n > 0 {
      OrphanRows(p, n - 1);
      OrphanInPlace(p, n - 1);
      V.OrphansFile(p, V.Claims(p), n - 1);
      OrphanTurnByRule(p, n - 1, OrphanPass(p, n - 1));
      TurnedOneMore(p.rows, OrphanPass(p, n - 1).rows, OrphansSeen(p, n - 1), AllMoved(p),
        p.orphans[n - 1].record.id);
    }
  }

  /** After the first loop every row is the moved one. */
  lemma AfterTheFirstLoop(p: Plan)
    requires Handed(p)
    ensures OrphanPass(p, |p.orphans|).rows == AllMoved(p)
  {
    hide OrphanPass, Offer, Moves, SpeaksFor;
    OrphanRows(p, |p.orphans|);
    forall id | id in p.rows && id !in OrphansSeen(p, |p.orphans|) ensures RowMoved(p, id) == p.rows[id] {
      assert !LostItsRoot(p, id);
    }
  }

  // ------------------------------------------------------------ the second loop

  lemma OfferedByRule(p: Plan, id: AlarmId, reps: map<RepKey, AlarmId>)
    requires id in p.rows && InView(p.rows[id])
    ensures IsOffered(p, id) <==> !Skipped(p, Rec(p, id)) && Judge(p, Rec(p, id), reps).Some?
  {
    hide Best, TakesPart;
  }

  lemma OfferedVerdict(p: Plan, j: nat, reps: map<RepKey, AlarmId>)
    requires Handed(p) && j < |p.visible| && IsOffered(p, p.visible[j].id) && V.NamesBefore(p, j, reps)
    ensures var id, v := p.visible[j].id, Judge(p, p.visible[j], reps);
            && v.Some? && v.value.record == Offer(p, id).value.record && v.value.tier == Offer(p, id).value.tier
            && v.value.representative == !v.value.suppress
            && (v.value.representative <==>
                  MaySpeak(p.rows[id], v.value.record) && SpeaksFor(p, KeyAt(p, id, v.value.record.id), id))
  {
    hide Judge, Offer, SpeaksFor, Skipped, IsOffered, V.NamesBefore, V.Elected, Handed;
    VisibleInPlace(p, j);
    var id := p.visible[j].id;
    OfferedByRule(p, id, reps);
    OfferIgnoresNames(p, id, reps);
    var v := Judge(p, p.visible[j], reps).value;
    V.SpeaksIfElected(p, j, p.visible[j], reps, v);
    TheElected(p, KeyAt(p, id, v.record.id), id);
  }

  lemma VisibleInPlace(p: Plan, n: nat)
    requires Handed(p) && n < |p.visible|
    ensures var id := p.visible[n].id;
            && id in p.rows && InView(p.rows[id]) && p.visible[n] == Rec(p, id)
            && id !in VisibleSeen(p, n) && VisibleSeen(p, n + 1) == VisibleSeen(p, n) + {id}
  {
    hide Offer, LostItsRoot;
    var id := p.visible[n].id;
    forall i | 0 <= i < n ensures p.visible[i].id != id { assert Onset(p.visible[i], p.visible[n]);
      SameRecord(p, i, n); }
  }

  lemma SameRecord(p: Plan, i: nat, n: nat)
    requires Handed(p) && i < n < |p.visible|
    ensures p.visible[i].id != p.visible[n].id
  {
    hide Offer, LostItsRoot;
    assert Onset(p.visible[i], p.visible[n]);
  }

  lemma AdoptTurnByRule(p: Plan, j: nat, t: Tally)
    requires Handed(p) && j < |p.visible| && V.NamesBefore(p, j, t.reps)
    requires p.visible[j].id in t.rows && p.visible[j].id in p.rows
    requires t.rows[p.visible[j].id] == RowMoved(p, p.visible[j].id)
    requires p.visible[j].id in t.tied <==> p.visible[j].id in p.reps.Values
    ensures var id := p.visible[j].id;
            var t' := AdoptStep(p, t, p.visible[j]);
            t'.rows == t.rows[id := RowAfter(p, id)] && t.tied <= t'.tied <= t.tied + {id}
  {
    hide Judge, Offer, SpeaksFor, Skipped, IsOffered, V.NamesBefore, RowMoved, MaySpeak, Handed;
    VisibleInPlace(p, j);
    var id := p.visible[j].id;
    OfferedByRule(p, id, t.reps);
    if IsOffered(p, id) { OfferedVerdict(p, j, t.reps); }
  }

  lemma {:induction false} VisibleRows(p: Plan, n: nat)
    requires Handed(p) && n <= |p.visible|
    ensures var t := AdoptPass(p, n);
            && Turned(AllMoved(p), t.rows, VisibleSeen(p, n), AllAfter(p))
            && p.reps.Values <= t.tied <= p.reps.Values + VisibleSeen(p, n)
  {
    hide Handed, RowMoved, RowAfter, OrphanPass, AdoptStep, V.NamesBefore;
    if n == 0 {
      AfterTheFirstLoop(p);
      TiedIsUntouched(p, |p.orphans|);
    } else {
      VisibleRows(p, n - 1);
      VisibleInPlace(p, n - 1);
      V.LoopNames(p, n - 1);
      AdoptTurnByRule(p, n - 1, AdoptPass(p, n - 1));
      TurnedOneMore(AllMoved(p), AdoptPass(p, n - 1).rows, VisibleSeen(p, n - 1), AllAfter(p), p.visible[n - 1].id);
    }
  }

  lemma SeenInView(p: Plan, id: AlarmId)
    requires Handed(p) && id in p.rows && InView(p.rows[id])
    ensures id in VisibleSeen(p, |p.visible|)
  {
    hide Offer, LostItsRoot;
  }

  /** An open alarm that is offered nothing, or is not in view, is left to the first loop. */
  lemma NotOffered(p: Plan, id: AlarmId)
    requires Handed(p) && id in p.rows && !p.rows[id].cleared && id !in VisibleSeen(p, |p.visible|)
    ensures RowAfter(p, id) == RowMoved(p, id)
  {
    hide Offer, LostItsRoot, RowMoved, SpeaksFor;
    if InView(p.rows[id]) {
      SeenInView(p, id);
      assert false;
    }
  }

  lemma ReleasedByRule(p: Plan, id: AlarmId, a: Alarm)
    requires id in p.rows
    requires if p.rows[id].cleared then a == p.rows[id] else a == RowAfter(p, id) && !a.cleared
    ensures Released(a) == RowAfter(p, id)
  {
    hide RowMoved, Offer, SpeaksFor, IsOffered;
  }

  /** After a sweep every row is the one the rules give, whatever orders the queries and the loops went in. */
  lemma SweptRowsAreThese(p: Plan)
    requires FairPlan(p)
    ensures Swept(p).Keys == p.rows.Keys
    ensures forall id :: id in p.rows ==> Swept(p)[id] == RowAfter(p, id)
  {
    hide FairPlan, Handed, AdoptPass, RowAfter, RowMoved, Released;
    FairPlansHand(p);
    FairPlansWorkOnOpen(p);
    ClearedAreUntouched(p, |p.visible|);
    VisibleRows(p, |p.visible|);
    var rows := AdoptPass(p, |p.visible|).rows;
    forall id | id in p.rows ensures Swept(p)[id] == RowAfter(p, id) {
      if !p.rows[id].cleared && id !in VisibleSeen(p, |p.visible|) { NotOffered(p, id); }
      ReleasedByRule(p, id, rows[id]);
    }
  }

  // --------------------------------------------------------------- what it means

  /**
   A cleared alarm after a sweep. One that a mark had folded is nobody's symptom any more; one that only spoke
   loses the tie and nothing else; one without a mark is as it was.
   */
  lemma TheClearedAreReleased(p: Plan, id: AlarmId)
    requires FairPlan(p) && id in p.rows && p.rows[id].cleared
    ensures id in Swept(p)
    ensures p.rows[id].l5.None? ==> Swept(p)[id] == p.rows[id]
    ensures p.rows[id].l5.Some? && p.rows[id].l5.value.suppressed ==>
              Swept(p)[id] == p.rows[id].(isSymptom := false, rootCause := None, l5 := None)
    ensures p.rows[id].l5.Some? && !p.rows[id].l5.value.suppressed ==> Swept(p)[id] == p.rows[id].(l5 := None)
  {
    SweptRowsAreThese(p);
  }

  /** An open alarm that kept its root, and is out of view or offered nothing, is not touched. */
  lemma BystandersAreUntouched(p: Plan, id: AlarmId)
    requires FairPlan(p) && id in p.rows && !p.rows[id].cleared
    requires !LostItsRoot(p, id) && !IsOffered(p, id)
    ensures id in Swept(p) && Swept(p)[id] == p.rows[id]
  {
    SweptRowsAreThese(p);
  }

  /**
   The late root adopts. An alarm in view that kept its root, or had none, and is offered one, is folded under
   it unless it speaks; and one that speaks is tied to it, unless it spoke for something already.
   */
  lemma TheLateRootAdopts(p: Plan, id: AlarmId)
    requires FairPlan(p) && IsOffered(p, id) && !LostItsRoot(p, id)
    ensures id in Swept(p)
    ensures var a, root := p.rows[id], Offer(p, id).value;
            var speaks := MaySpeak(a, root.record) && SpeaksFor(p, KeyAt(p, id, root.record.id), id);
            var mark := Mark(root.record.id, root.tier, !speaks, p.now);
            && (!speaks ==> Swept(p)[id] == a.(isSymptom := true, rootCause := Some(root.record.id), l5 := Some(mark)))
            && (speaks ==> Swept(p)[id] == if id in p.reps.Values then a else a.(l5 := Some(mark)))
  {
    hide Offer, SpeaksFor;
    SweptRowsAreThese(p);
  }

  /**
   A lost root. An alarm tied to a root that has cleared, and not in view itself, moves to the root it is
   offered; else it comes back into view if it is the one to speak; else it stays as it was.
   */
  lemma TheLostMoveOrSpeak(p: Plan, id: AlarmId)
    requires FairPlan(p) && LostItsRoot(p, id) && !IsOffered(p, id)
    ensures id in Swept(p)
    ensures var a, z, m := p.rows[id], Swept(p)[id], p.rows[id].l5.value;
            if Moves(p, id) then
              var root := Offer(p, id).value;
              var folded := !(MaySpeak(a, root.record) && SpeaksFor(p, KeyAt(p, id, root.record.id), id));
              z == a.(isSymptom := folded, rootCause := if folded then Some(root.record.id) else None,
                      l5 := Some(Mark(root.record.id, root.tier, folded, p.now)))
            else if KeyAt(p, id, m.root) !in p.reps && SpeaksFor(p, KeyAt(p, id, m.root), id) then
              z == a.(isSymptom := false, rootCause := None, l5 := Some(m.(suppressed := false)))
            else z == a
  {
    hide Offer, SpeaksFor;
    SweptRowsAreThese(p);
  }

  // --------------------------------------------------------------- the counters

  ghost predicate Returns(p: Plan, id: AlarmId)
    requires LostItsRoot(p, id)
  {
    var k := KeyAt(p, id, p.rows[id].l5.value.root);
    !Moves(p, id) && k !in p.reps && SpeaksFor(p, k, id)
  }

  /** It is tied to what it is offered, and not one that speaks for something already and goes on to speak. */
  ghost predicate IsAdopted(p: Plan, id: AlarmId)
    requires id in p.rows
  {
    IsOffered(p, id) &&
    var root := Offer(p, id).value.record;
    !(MaySpeak(p.rows[id], root) && SpeaksFor(p, KeyAt(p, id, root.id), id) && id in p.reps.Values)
  }

  lemma OrphanTurnCounts(p: Plan, i: nat, t: Tally)
    requires Handed(p) && i < |p.orphans| && t.reps == V.Filed(p.reps, V.Claims(p)[..i])
    ensures var id, t' := p.orphans[i].record.id, OrphanStep(p, t, p.orphans[i]);
            && t'.moved == t.moved + (if Moves(p, id) then 1 else 0)
            && t'.spoken == t.spoken + (if Returns(p, id) then 1 else 0)
  {
    hide Judge, SpeaksFor, V.Filed, V.Claims, Offer, MaySpeak;
    var id := p.orphans[i].record.id;
    OfferIgnoresNames(p, id, t.reps);
    if !Moves(p, id) { FreeInTurn(p, i, KeyAt(p, id, p.rows[id].l5.value.root), t.reps); }
  }

  lemma AdoptTurnCounts(p: Plan, j: nat, t: Tally)
    requires Handed(p) && j < |p.visible| && V.NamesBefore(p, j, t.reps)
    requires p.visible[j].id in p.rows
    requires p.visible[j].id in t.tied <==> p.visible[j].id in p.reps.Values
    ensures var id, t' := p.visible[j].id, AdoptStep(p, t, p.visible[j]);
            t'.adopted == t.adopted + (if IsAdopted(p, id) then 1 else 0)
  {
    hide Judge, Offer, SpeaksFor, Skipped, IsOffered, V.NamesBefore, MaySpeak, Handed;
    VisibleInPlace(p, j);
    var id := p.visible[j].id;
    OfferedByRule(p, id, t.reps);
    if IsOffered(p, id) { OfferedVerdict(p, j, t.reps); }
  }

  ghost function MovedAmong(p: Plan, ids: set<AlarmId>): set<AlarmId> {
    set id | id in ids && LostItsRoot(p, id) && Moves(p, id)
  }

  ghost function ReturnedAmong(p: Plan, ids: set<AlarmId>): set<AlarmId> {
    set id | id in ids && LostItsRoot(p, id) && Returns(p, id)
  }

  ghost function AdoptedAmong(p: Plan, ids: set<AlarmId>): set<AlarmId> {
    set id | id in ids && id in p.rows && IsAdopted(p, id)
  }

  lemma OneMoreCounts(some: set<AlarmId>, more: set<AlarmId>, id: AlarmId, counts: bool)
    requires id !in some && more == some + if counts then {id} else {}
    ensures |more| == |some| + if counts then 1 else 0
  {
  }

  lemma OneMoreMoved(p: Plan, ids: set<AlarmId>, id: AlarmId)
    requires LostItsRoot(p, id) && id !in ids
    ensures |MovedAmong(p, ids + {id})| == |MovedAmong(p, ids)| + if Moves(p, id) then 1 else 0
  {
    hide Moves, LostItsRoot;
    OneMoreCounts(MovedAmong(p, ids), MovedAmong(p, ids + {id}), id, Moves(p, id));
  }

  lemma OneMoreReturned(p: Plan, ids: set<AlarmId>, id: AlarmId)
    requires LostItsRoot(p, id) && id !in ids
    ensures |ReturnedAmong(p, ids + {id})| == |ReturnedAmong(p, ids)| + if Returns(p, id) then 1 else 0
  {
    hide Returns, LostItsRoot;
    OneMoreCounts(ReturnedAmong(p, ids), ReturnedAmong(p, ids + {id}), id, Returns(p, id));
  }

  lemma OneMoreAdopted(p: Plan, ids: set<AlarmId>, id: AlarmId)
    requires id in p.rows && id !in ids
    ensures |AdoptedAmong(p, ids + {id})| == |AdoptedAmong(p, ids)| + if IsAdopted(p, id) then 1 else 0
  {
    hide IsAdopted;
    OneMoreCounts(AdoptedAmong(p, ids), AdoptedAmong(p, ids + {id}), id, IsAdopted(p, id));
  }

  lemma CountsBegin(p: Plan)
    ensures |MovedAmong(p, OrphansSeen(p, 0))| == 0 && |ReturnedAmong(p, OrphansSeen(p, 0))| == 0
    ensures |AdoptedAmong(p, VisibleSeen(p, 0))| == 0
  {
    hide Moves, Returns, IsAdopted;
  }

  lemma {:induction false} OrphansCounted(p: Plan, n: nat)
    requires Handed(p) && n <= |p.orphans|
    ensures var t := OrphanPass(p, n);
            t.moved == |MovedAmong(p, OrphansSeen(p, n))| && t.spoken == |ReturnedAmong(p, OrphansSeen(p, n))|
  {
    hide Handed, V.Claims, V.Filed, OrphanStep, OrphansSeen, Moves, Returns, LostItsRoot, MovedAmong, ReturnedAmong;
    if n == 0 {
      CountsBegin(p);
    } else {
      OrphansCounted(p, n - 1);
      OrphanInPlace(p, n - 1);
      V.OrphansFile(p, V.Claims(p), n - 1);
      OrphanIsLost(p, n - 1);
      OrphanTurnCounts(p, n - 1, OrphanPass(p, n - 1));
      OneMoreMoved(p, OrphansSeen(p, n - 1), p.orphans[n - 1].record.id);
      OneMoreReturned(p, OrphansSeen(p, n - 1), p.orphans[n - 1].record.id);
    }
  }

  lemma OrphanIsLost(p: Plan, i: nat)
    requires Handed(p) && i < |p.orphans|
    ensures LostItsRoot(p, p.orphans[i].record.id)
  {
  }

  lemma {:induction false} VisibleCounted(p: Plan, n: nat)
    requires Handed(p) && n <= |p.visible|
    ensures AdoptPass(p, n).adopted == |AdoptedAmong(p, VisibleSeen(p, n))|
  {
    hide Handed, OrphanPass, AdoptStep, V.NamesBefore, VisibleSeen, IsAdopted, AdoptedAmong, Turned;
    if n == 0 {
      TiedIsUntouched(p, |p.orphans|);
      CountsBegin(p);
    } else {
      VisibleCounted(p, n - 1);
      VisibleRows(p, n - 1);
      VisibleInPlace(p, n - 1);
      V.LoopNames(p, n - 1);
      AdoptTurnCounts(p, n - 1, AdoptPass(p, n - 1));
      OneMoreAdopted(p, VisibleSeen(p, n - 1), p.visible[n - 1].id);
    }
  }

  /** What `sweep` returns as moved, spoken and adopted counts exactly the alarms of each kind. */
  lemma TheCountsAreThese(p: Plan)
    requires FairPlan(p)
    ensures var t := AdoptPass(p, |p.visible|);
            && t.moved == |set id | id in p.rows && LostItsRoot(p, id) && Moves(p, id)|
            && t.spoken == |set id | id in p.rows && LostItsRoot(p, id) && Returns(p, id)|
            && t.adopted == |set id | id in p.rows && IsAdopted(p, id)|
  {
    hide FairPlan, AdoptPass, OrphanPass, Moves, Returns;
    FairPlansHand(p);
    TalliesMeet(p);
    OrphansCounted(p, |p.orphans|);
    VisibleCounted(p, |p.visible|);
    AllAreSeen(p);
    hide IsAdopted;
    assert MovedAmong(p, OrphansSeen(p, |p.orphans|)) == set id | id in p.rows && LostItsRoot(p, id) && Moves(p, id);
    assert ReturnedAmong(p, OrphansSeen(p, |p.orphans|))
        == set id | id in p.rows && LostItsRoot(p, id) && Returns(p, id);
    assert AdoptedAmong(p, VisibleSeen(p, |p.visible|)) == set id | id in p.rows && IsAdopted(p, id);
  }

  lemma AllAreSeen(p: Plan)
    requires Handed(p)
    ensures forall id :: LostItsRoot(p, id) ==> id in OrphansSeen(p, |p.orphans|)
    ensures forall id :: id in p.rows && IsAdopted(p, id) ==> id in VisibleSeen(p, |p.visible|)
  {
    forall id | id in p.rows && IsAdopted(p, id) ensures id in VisibleSeen(p, |p.visible|) { SeenInView(p, id); }
  }
}
