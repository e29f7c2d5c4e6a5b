/**
 A root that has cleared speaks for nothing, so some consequence of each kind in each room must.

 `ExactlyWhenVoiced` follows one key (cleared root, room, alarm type) through both loops of a
 sweep and says, from the snapshots alone, exactly when some alarm of that key is in view at the
 end. `NeverBlank` is the condition a caller can check at a glance: no alarm that already speaks
 is judged to another root.
 */
module NeverBlank {
  import opened Wrappers
  import opened CoolingTaxonomy
  import opened CoolingGraphs
  import opened RootChoice
  import opened AlarmTable
  import opened CoolingSweeps

  // ------------------------------------------------------------------ one key

  function Rec(p: Plan, id: AlarmId): Record
    requires id in p.rows
  {
    RecordOf(id, p.rows[id], false)
  }

  /** The root either loop will name for an alarm, whoever speaks by then. */
  function Chosen(p: Plan, id: AlarmId): Option<AlarmId>
    requires id in p.rows
  {
    var c := Choice(p.g, p.fires, Rec(p, id), p.candidates);
    if c.Some? then Some(c.value.id) else None
  }

  type Offers = map<AlarmId, Option<AlarmId>>

  function OffersOf(p: Plan): Offers {
    map id | id in p.rows :: Chosen(p, id)
  }

  /** The alarm is of the key's type, in the key's room. */
  predicate SameKind(p: Plan, id: AlarmId, k: RepKey) {
    id in p.rows && k.room == RoomOf(p.g, p.rows[id].device) && k.alarmType == p.rows[id].alarmType
  }

  predicate TiedTo(a: Alarm, root: AlarmId) {
    a.l5.Some? && a.l5.value.root == root
  }

  /** No root, or the one it has, is what the orphaned alarm is offered. */
  predicate Stays(rows: Rows, ch: Offers, id: AlarmId) {
    id in rows && id in ch && rows[id].l5.Some? && (ch[id] == None || ch[id] == Some(rows[id].l5.value.root))
  }

  /** The first loop leaves the orphaned alarm tied to the key's root. */
  predicate OrphanClaims(p: Plan, ch: Offers, id: AlarmId, k: RepKey) {
    SameKind(p, id, k) && Orphaned(p.rows, id) && id in ch &&
    (ch[id] == Some(k.root) || (Stays(p.rows, ch, id) && TiedTo(p.rows[id], k.root)))
  }

  /** The second loop judges the visible alarm to the key's root. */
  predicate Claims(p: Plan, ch: Offers, a: Record, k: RepKey) {
    SameKind(p, a.id, k) && a.id in ch && !Skipped(p, a) && ch[a.id] == Some(k.root)
  }

  /** The rooms of the graph are those of the database, for every device with a tied alarm. */
  ghost predicate RoomsAgree(p: Plan) {
    forall id :: id in p.rows && p.rows[id].l5.Some? ==>
      p.rows[id].device in p.rooms && p.rooms[p.rows[id].device] == RoomOf(p.g, p.rows[id].device)
  }

  /**
   What the proofs below use of a fair plan: the key's root has cleared, and the loops are handed the right
   rows, once each.
   */
  ghost predicate Scene(p: Plan, k: RepKey) {
    && k.root in p.rows && p.rows[k.root].cleared
    && (forall i :: 0 <= i < |p.orphans| ==>
          var id := p.orphans[i].record.id;
          Orphaned(p.rows, id) && p.orphans[i] == Orphan(Rec(p, id), p.rows[id].l5.value.root))
    && (forall i, j :: 0 <= i < j < |p.orphans| ==> p.orphans[i].record.id != p.orphans[j].record.id)
    && (forall i :: 0 <= i < |p.visible| ==>
          var id := p.visible[i].id;
          id in p.rows && OpenVisible(p.rows[id]) && p.visible[i] == Rec(p, id))
    && (forall i, j :: 0 <= i < j < |p.visible| ==> p.visible[i].id != p.visible[j].id)
    && (forall r :: r in p.candidates ==> r.id in p.rows && r.cleared == p.rows[r.id].cleared)
  }

  /** Among the first `n` of the orphaned. */
  ghost predicate OrphanedIn(p: Plan, n: nat, id: AlarmId)
    requires n <= |p.orphans|
  {
    exists i :: 0 <= i < n && p.orphans[i].record.id == id
  }

  /** Among the first `n` of the visible. */
  ghost predicate VisibleIn(p: Plan, n: nat, id: AlarmId)
    requires n <= |p.visible|
  {
    exists i :: 0 <= i < n && p.visible[i].id == id
  }

  // ------------------------------------------------------- what a verdict does

  /** A verdict either loop could be handed for an alarm, seen from one cleared key. */
  ghost predicate FitVerdict(p: Plan, ch: Offers, id: AlarmId, k: RepKey, reps: map<RepKey, AlarmId>, v: Option<Root>) {
    && id in ch && ch[id] == (if v.Some? then Some(v.value.record.id) else None)
    && (v.Some? ==> v.value.representative == !v.value.suppress)
    && (v.Some? && v.value.record.id == k.root && SameKind(p, id, k) ==>
          (v.value.suppress <==> k in reps && reps[k] != id))
  }

  lemma JudgeIsFit(p: Plan, id: AlarmId, k: RepKey, reps: map<RepKey, AlarmId>)
    requires Scene(p, k) && id in p.rows
    ensures FitVerdict(p, OffersOf(p), id, k, reps, Judge(p, Rec(p, id), reps))
  {
    var v := Judge(p, Rec(p, id), reps);
    if v.Some? {
      assert v.value.record in p.candidates;
    }
  }

  // -------------------------------------------------------------- the first loop

  /** Where the first loop has left the alarms of the key's kind, and who speaks for it. */
  ghost predicate AfterOrphans(p: Plan, ch: Offers, k: RepKey, n: nat, t: Tally)
    requires n <= |p.orphans|
  {
    && t.rows.Keys == p.rows.Keys
    && (forall id :: id in p.rows && !OrphanedIn(p, n, id) ==> t.rows[id] == p.rows[id])
    && (k in p.reps ==> k in t.reps && t.reps[k] == p.reps[k])
    && (k in t.reps && k !in p.reps ==> OrphanedIn(p, n, t.reps[k]) && OrphanClaims(p, ch, t.reps[k], k))
    && (forall id :: id in p.rows && SameKind(p, id, k) && OrphanedIn(p, n, id) ==> Settled(p, ch, k, t, id))
  }

  /**
   An orphaned alarm the loop has seen. A claimant that moved is in view just when it speaks; one
   that stayed is as it was, unless it came back to speak; any other is tied elsewhere.
   */
  ghost predicate Settled(p: Plan, ch: Offers, k: RepKey, t: Tally, id: AlarmId)
    requires id in p.rows && id in t.rows
  {
    if !OrphanClaims(p, ch, id, k) then t.rows[id].l5.Some? && t.rows[id].l5.value.root != k.root
    else
      && k in t.reps && TiedTo(t.rows[id], k.root)
      && (if Stays(p.rows, ch, id) then
            t.rows[id] == (if k !in p.reps && t.reps[k] == id then Unfolded(p.rows[id]) else p.rows[id])
          else t.rows[id].isSymptom <==> t.reps[k] != id)
  }

  /** What one turn does to the alarm it is on, and to the key. */
  lemma OrphanTurnEffect(p: Plan, ch: Offers, k: RepKey, t: Tally, o: Orphan, v: Option<Root>)
    requires Orphaned(p.rows, o.record.id) && o == Orphan(Rec(p, o.record.id), p.rows[o.record.id].l5.value.root)
    requires t.rows.Keys == p.rows.Keys && t.rows[o.record.id] == p.rows[o.record.id]
    requires k in p.reps ==> k in t.reps && t.reps[k] == p.reps[k]
    requires k in t.reps && k !in p.reps ==> t.reps[k] != o.record.id
    requires FitVerdict(p, ch, o.record.id, k, t.reps, v)
    ensures var t', id := OrphanTurn(p, t, o, v), o.record.id;
            && t'.rows.Keys == p.rows.Keys
            && (forall x :: x in p.rows && x != id ==> t'.rows[x] == t.rows[x])
            && (k in t.reps ==> k in t'.reps && t'.reps[k] == t.reps[k])
            && (k in t'.reps && k !in t.reps ==> t'.reps[k] == id && OrphanClaims(p, ch, id, k))
            && (SameKind(p, id, k) ==> Settled(p, ch, k, t', id))
  {
    hide TakesPart;
    var id := o.record.id;
    assert SameKind(p, id, k) <==> KeyFor(p.g, o.record, k.root) == k;
    if v.None? || v.value.record.id == o.oldRoot {
      assert Stays(p.rows, ch, id);
    } else {
      assert !Stays(p.rows, ch, id);
    }
  }

  lemma OrphanTurnOnKey(p: Plan, ch: Offers, k: RepKey, n: nat, t: Tally, v: Option<Root>, t': Tally)
    requires 0 < n <= |p.orphans| && Scene(p, k) && AfterOrphans(p, ch, k, n - 1, t)
    requires FitVerdict(p, ch, p.orphans[n - 1].record.id, k, t.reps, v)
    requires t' == OrphanTurn(p, t, p.orphans[n - 1], v)
    ensures AfterOrphans(p, ch, k, n, t')
  {
    var o := p.orphans[n - 1];
    var id := o.record.id;
    assert forall x :: OrphanedIn(p, n, x) <==> OrphanedIn(p, n - 1, x) || x == id;
    assert !OrphanedIn(p, n - 1, id);
    OrphanTurnEffect(p, ch, k, t, o, v);
    forall x | x in p.rows && SameKind(p, x, k) && OrphanedIn(p, n, x)
      ensures Settled(p, ch, k, t', x)
    {
      if x != id { assert Settled(p, ch, k, t, x); }
    }
  }

  lemma OrphanVerdict(p: Plan, ch: Offers, k: RepKey, n: nat) returns (v: Option<Root>)
    requires 0 < n <= |p.orphans| && Scene(p, k) && ch == OffersOf(p)
    ensures OrphanPass(p, n) == OrphanTurn(p, OrphanPass(p, n - 1), p.orphans[n - 1], v)
    ensures FitVerdict(p, ch, p.orphans[n - 1].record.id, k, OrphanPass(p, n - 1).reps, v)
  {
    var t, id := OrphanPass(p, n - 1), p.orphans[n - 1].record.id;
    assert Orphaned(p.rows, id);
    v := Judge(p, Rec(p, id), t.reps);
    JudgeIsFit(p, id, k, t.reps);
  }

  lemma OrphansBase(p: Plan, ch: Offers, k: RepKey)
    ensures AfterOrphans(p, ch, k, 0, OrphanPass(p, 0))
  {
    assert forall x :: !OrphanedIn(p, 0, x);
  }

  lemma {:induction false} OrphansOnKey(p: Plan, ch: Offers, k: RepKey, n: nat)
    requires n <= |p.orphans| && Scene(p, k) && ch == OffersOf(p)
    ensures AfterOrphans(p, ch, k, n, OrphanPass(p, n))
  {
    hide OrphanPass, AfterOrphans, FitVerdict, OrphanTurn;
    if n == 0 {
      OrphansBase(p, ch, k);
    } else {
      OrphansOnKey(p, ch, k, n - 1);
      var v := OrphanVerdict(p, ch, k, n);
      OrphanTurnOnKey(p, ch, k, n, OrphanPass(p, n - 1), v, OrphanPass(p, n));
    }
  }

  // ------------------------------------------------------------- the second loop

  /** `id` is the oldest of the first `n` visible alarms that the second loop judges to the key's root. */
  ghost predicate FirstClaim(p: Plan, ch: Offers, k: RepKey, n: nat, id: AlarmId)
    requires n <= |p.visible|
  {
    exists j :: ClaimsFirst(p, ch, k, n, j) && p.visible[j].id == id
  }

  ghost predicate ClaimsFirst(p: Plan, ch: Offers, k: RepKey, n: nat, j: int)
    requires n <= |p.visible|
  {
    0 <= j < n && Claims(p, ch, p.visible[j], k) && forall i :: 0 <= i < j ==> !Claims(p, ch, p.visible[i], k)
  }

  ghost predicate SomeClaim(p: Plan, ch: Offers, k: RepKey, n: nat)
    requires n <= |p.visible|
  {
    exists j :: 0 <= j < n && Claims(p, ch, p.visible[j], k)
  }

  /** Where the second loop has left things after `n` turns, starting from the tally `r`. */
  ghost predicate AfterAdoption(p: Plan, ch: Offers, k: RepKey, r: Tally, n: nat, t: Tally)
    requires n <= |p.visible|
  {
    && r.rows.Keys == t.rows.Keys == p.rows.Keys
    && (k in r.reps ==> k in t.reps && t.reps[k] == r.reps[k])
    && (k !in r.reps ==>
          (k in t.reps <==> SomeClaim(p, ch, k, n)) && (k in t.reps ==> FirstClaim(p, ch, k, n, t.reps[k])))
    && p.reps.Values <= t.tied
    && (forall x :: x in t.tied ==> x in p.reps.Values || VisibleIn(p, n, x))
    && (forall id :: id in p.rows && !VisibleIn(p, n, id) ==> t.rows[id] == r.rows[id])
    && (forall id :: id in p.rows && SameKind(p, id, k) && VisibleIn(p, n, id) ==> Judged(p, ch, k, r, t, id))
  }

  /**
   A visible alarm the loop has seen. A claimant is tied to the key's root and hidden, unless it is
   the one that speaks; then it is as it was, or tied at last if it had not been.
   */
  ghost predicate Judged(p: Plan, ch: Offers, k: RepKey, r: Tally, t: Tally, id: AlarmId)
    requires id in p.rows && id in r.rows && id in t.rows
  {
    if Claims(p, ch, Rec(p, id), k) then
      k in t.reps &&
      if t.reps[k] != id then TiedTo(t.rows[id], k.root) && t.rows[id].isSymptom
      else if id in p.reps.Values then t.rows[id] == r.rows[id]
      else TiedTo(t.rows[id], k.root) && t.rows[id].isSymptom == r.rows[id].isSymptom
    else
      t.rows[id] == r.rows[id] ||
      (!Skipped(p, Rec(p, id)) && id in ch && ch[id].Some? && t.rows[id].l5.Some? && t.rows[id].l5.value.root != k.root)
  }

  /** What one turn, or passing an alarm by, does to the alarm it is on and to the key. */
  lemma AdoptTurnEffect(p: Plan, ch: Offers, k: RepKey, r: Tally, t: Tally, a: Record, v: Option<Root>, t': Tally)
    requires a.id in p.rows && a == Rec(p, a.id) && t' == if Skipped(p, a) then t else AdoptTurn(p, t, a, v)
    requires r.rows.Keys == t.rows.Keys == p.rows.Keys && t.rows[a.id] == r.rows[a.id]
    requires a.id in t.tied <==> a.id in p.reps.Values
    requires FitVerdict(p, ch, a.id, k, t.reps, v)
    ensures t'.rows.Keys == p.rows.Keys
    ensures forall x :: x in p.rows && x != a.id ==> t'.rows[x] == t.rows[x]
    ensures k in t.reps ==> k in t'.reps && t'.reps[k] == t.reps[k]
    ensures k !in t.reps ==> (k in t'.reps <==> Claims(p, ch, a, k)) && (k in t'.reps ==> t'.reps[k] == a.id)
    ensures t.tied <= t'.tied <= t.tied + {a.id}
    ensures SameKind(p, a.id, k) ==> Judged(p, ch, k, r, t', a.id)
  {
    hide TakesPart;
    assert SameKind(p, a.id, k) <==> KeyFor(p.g, a, k.root) == k;
  }

  /** Who claims the key among the first n, once the n-th has been seen. */
  lemma ClaimsOneMore(p: Plan, ch: Offers, k: RepKey, n: nat)
    requires 0 < n <= |p.visible|
    ensures SomeClaim(p, ch, k, n) <==> SomeClaim(p, ch, k, n - 1) || Claims(p, ch, p.visible[n - 1], k)
    ensures forall id :: FirstClaim(p, ch, k, n - 1, id) ==> FirstClaim(p, ch, k, n, id)
    ensures !SomeClaim(p, ch, k, n - 1) && Claims(p, ch, p.visible[n - 1], k) ==>
        FirstClaim(p, ch, k, n, p.visible[n - 1].id)
  {
    hide Claims;
    forall id | FirstClaim(p, ch, k, n - 1, id) ensures FirstClaim(p, ch, k, n, id) {
      var j :| ClaimsFirst(p, ch, k, n - 1, j) && p.visible[j].id == id;
      assert ClaimsFirst(p, ch, k, n, j);
    }
    if !SomeClaim(p, ch, k, n - 1) && Claims(p, ch, p.visible[n - 1], k) { assert ClaimsFirst(p, ch, k, n, n - 1); }
  }

  lemma SeenOneMore(p: Plan, n: nat)
    requires 0 < n <= |p.visible| && forall i, j :: 0 <= i < j < |p.visible| ==> p.visible[i].id != p.visible[j].id
    ensures forall x :: VisibleIn(p, n, x) <==> VisibleIn(p, n - 1, x) || x == p.visible[n - 1].id
    ensures !VisibleIn(p, n - 1, p.visible[n - 1].id)
  {
  }

  /** A turn that passes an alarm by changes nothing. */
  lemma AdoptTurnOnKey(p: Plan, ch: Offers, k: RepKey, r: Tally, n: nat, t: Tally, v: Option<Root>, t': Tally)
    requires 0 < n <= |p.visible| && Scene(p, k) && AfterAdoption(p, ch, k, r, n - 1, t)
    requires FitVerdict(p, ch, p.visible[n - 1].id, k, t.reps, v)
    requires t' == if Skipped(p, p.visible[n - 1]) then t else AdoptTurn(p, t, p.visible[n - 1], v)
    ensures AfterAdoption(p, ch, k, r, n, t')
  {
    hide AdoptTurn, FitVerdict, Judged, Claims, Skipped, SomeClaim, FirstClaim, VisibleIn;
    var a := p.visible[n - 1];
    SeenOneMore(p, n);
    ClaimsOneMore(p, ch, k, n);
    AdoptTurnEffect(p, ch, k, r, t, a, v, t');
    forall x | x in p.rows && SameKind(p, x, k) && VisibleIn(p, n, x)
      ensures Judged(p, ch, k, r, t', x)
    {
      if x != a.id { StaysJudged(p, ch, k, r, t, t', x); }
    }
  }

  /** What the loop has made of an alarm stands while its row and the key's name do. */
  lemma StaysJudged(p: Plan, ch: Offers, k: RepKey, r: Tally, t: Tally, t': Tally, x: AlarmId)
    requires x in p.rows && x in r.rows && x in t.rows && x in t'.rows && Judged(p, ch, k, r, t, x)
    requires t'.rows[x] == t.rows[x] && (k in t.reps ==> k in t'.reps && t'.reps[k] == t.reps[k])
    ensures Judged(p, ch, k, r, t', x)
  {
  }

  lemma AdoptVerdict(p: Plan, ch: Offers, k: RepKey, n: nat) returns (v: Option<Root>)
    requires 0 < n <= |p.visible| && Scene(p, k) && ch == OffersOf(p)
    ensures AdoptPass(p, n) ==
              if Skipped(p, p.visible[n - 1]) then AdoptPass(p, n - 1)
                  else AdoptTurn(p, AdoptPass(p, n - 1), p.visible[n - 1], v)
    ensures FitVerdict(p, ch, p.visible[n - 1].id, k, AdoptPass(p, n - 1).reps, v)
  {
    var t, id := AdoptPass(p, n - 1), p.visible[n - 1].id;
    v := Judge(p, Rec(p, id), t.reps);
    JudgeIsFit(p, id, k, t.reps);
  }

  lemma AdoptBase(p: Plan, ch: Offers, k: RepKey, r: Tally)
    requires r == OrphanPass(p, |p.orphans|) && r.rows.Keys == p.rows.Keys
    ensures AfterAdoption(p, ch, k, r, 0, AdoptPass(p, 0))
  {
    assert forall x :: !VisibleIn(p, 0, x);
    TiedIsUntouched(p, |p.orphans|);
  }

  lemma {:induction false} AdoptionOnKey(p: Plan, ch: Offers, k: RepKey, r: Tally, n: nat)
    requires n <= |p.visible| && Scene(p, k) && ch == OffersOf(p)
    requires r == OrphanPass(p, |p.orphans|) && r.rows.Keys == p.rows.Keys
    ensures AfterAdoption(p, ch, k, r, n, AdoptPass(p, n))
  {
    hide AdoptPass, OrphanPass, AfterAdoption, FitVerdict, AdoptTurn, Skipped;
    if n == 0 {
      AdoptBase(p, ch, k, r);
    } else {
      AdoptionOnKey(p, ch, k, r, n - 1);
      var v := AdoptVerdict(p, ch, k, n);
      AdoptTurnOnKey(p, ch, k, r, n, AdoptPass(p, n - 1), v, AdoptPass(p, n));
    }
  }

  // ---------------------------------------------------------------- the results

  /** An open alarm of the key's kind, tied to the key's root, is in view. */
  ghost predicate SpeaksFor(p: Plan, rows: Rows, k: RepKey, y: AlarmId) {
    SameKind(p, y, k) && y in rows && Voice(rows[y]) && TiedTo(rows[y], k.root)
  }

  ghost predicate HasVoice(p: Plan, rows: Rows, k: RepKey) {
    exists y :: SpeaksFor(p, rows, k, y)
  }

  /** A voice of the key that is left where it is, and that the second loop does not judge to the root again. */
  ghost predicate Standing(p: Plan, ch: Offers, k: RepKey, y: AlarmId) {
    SpeaksFor(p, p.rows, k, y) && Stays(p.rows, ch, y) && !(OpenVisible(p.rows[y]) && Claims(p, ch, Rec(p, y), k))
  }

  /**
   The condition, read off the snapshots. A key that already had a voice keeps one exactly when its
   representative stays or another voice stands beside it. A key that had none finds one exactly when
   an orphaned alarm claims it, or the oldest visible claimant was not already tied to something else.
   */
  ghost predicate Voiced(p: Plan, ch: Offers, k: RepKey) {
    if k in p.reps then Stays(p.rows, ch, p.reps[k]) || exists y :: Standing(p, ch, k, y)
    else
      || (exists y :: OrphanClaims(p, ch, y, k))
      || (exists a :: FirstClaim(p, ch, k, |p.visible|, a) && a !in p.reps.Values)
  }

  /** The two loops met on one key: what the final theorem reasons from. */
  ghost predicate Outcome(p: Plan, ch: Offers, k: RepKey, r: Tally, t: Tally) {
    && AfterOrphans(p, ch, k, |p.orphans|, r)
    && AfterAdoption(p, ch, k, r, |p.visible|, t)
    && (forall id :: Orphaned(p.rows, id) <==> OrphanedIn(p, |p.orphans|, id))
    && (forall id :: id in p.rows && OpenVisible(p.rows[id]) <==> VisibleIn(p, |p.visible|, id))
    && (forall id :: id in p.rows ==> id in ch)
    && (k in p.reps ==> SpeaksFor(p, p.rows, k, p.reps[k]))
    && k.root in p.rows && p.rows[k.root].cleared
    && ClearedStand(p.rows, t.rows)
  }

  /**
   An alarm neither loop judged to another root, and that a voice of the key names or the loops left alone,
   is in view.
   */
  lemma RepresentativeStays(p: Plan, ch: Offers, k: RepKey, r: Tally, t: Tally)
    requires Outcome(p, ch, k, r, t) && k in p.reps && Stays(p.rows, ch, p.reps[k])
    ensures SpeaksFor(p, t.rows, k, p.reps[k])
  {
    var x := p.reps[k];
    assert Orphaned(p.rows, x) && OrphanClaims(p, ch, x, k);
    assert Settled(p, ch, k, r, x);
    if VisibleIn(p, |p.visible|, x) { assert Judged(p, ch, k, r, t, x); }
  }

  lemma StandingStays(p: Plan, ch: Offers, k: RepKey, r: Tally, t: Tally, y: AlarmId)
    requires Outcome(p, ch, k, r, t) && k in p.reps && Standing(p, ch, k, y)
    ensures SpeaksFor(p, t.rows, k, y)
  {
    assert Orphaned(p.rows, y) && OrphanClaims(p, ch, y, k);
    assert Settled(p, ch, k, r, y);
    if VisibleIn(p, |p.visible|, y) { assert Judged(p, ch, k, r, t, y); }
  }

  lemma OrphanSpeaks(p: Plan, ch: Offers, k: RepKey, r: Tally, t: Tally, y: AlarmId)
    requires Outcome(p, ch, k, r, t) && k !in p.reps && OrphanClaims(p, ch, y, k)
    ensures k in r.reps && SpeaksFor(p, t.rows, k, r.reps[k])
  {
    assert Settled(p, ch, k, r, y);
    var w := r.reps[k];
    assert OrphanClaims(p, ch, w, k) && Settled(p, ch, k, r, w);
    assert !r.rows[w].isSymptom && TiedTo(r.rows[w], k.root);
    if VisibleIn(p, |p.visible|, w) { assert Judged(p, ch, k, r, t, w); }
  }

  lemma FirstClaimSpeaks(p: Plan, ch: Offers, k: RepKey, r: Tally, t: Tally, a: AlarmId)
    requires Outcome(p, ch, k, r, t) && k !in p.reps && FirstClaim(p, ch, k, |p.visible|, a) && a !in p.reps.Values
    requires forall y :: !OrphanClaims(p, ch, y, k)
    requires Scene(p, k)
    ensures SpeaksFor(p, t.rows, k, a)
  {
    var j :| ClaimsFirst(p, ch, k, |p.visible|, j) && p.visible[j].id == a;
    assert SomeClaim(p, ch, k, |p.visible|);
    assert VisibleIn(p, |p.visible|, a);
    assert k !in r.reps;
    var i :| ClaimsFirst(p, ch, k, |p.visible|, i) && p.visible[i].id == t.reps[k];
    assert i == j;
    assert !OrphanedIn(p, |p.orphans|, a) by { assert !OrphanClaims(p, ch, a, k); }
    assert Judged(p, ch, k, r, t, a);
  }

  /** Conversely, whoever is in view for the key at the end is there for one of those reasons. */
  lemma VoicesComeFromTheCondition(p: Plan, ch: Offers, k: RepKey, r: Tally, t: Tally, y: AlarmId)
    requires Outcome(p, ch, k, r, t) && Scene(p, k) && SpeaksFor(p, t.rows, k, y)
    ensures Voiced(p, ch, k)
  {
    assert !p.rows[y].cleared;
    if VisibleIn(p, |p.visible|, y) && Claims(p, ch, Rec(p, y), k) {
      assert Judged(p, ch, k, r, t, y);
      assert t.reps[k] == y;
      if k in r.reps {
        if k !in p.reps { assert OrphanClaims(p, ch, y, k); }
            else { assert p.reps[k] == y; assert Stays(p.rows, ch, y); }
      } else {
        assert FirstClaim(p, ch, k, |p.visible|, y);
        UnspokenKeysHaveNoTies(p, ch, k, r, t, y);
      }
    } else {
      assert VisibleIn(p, |p.visible|, y) ==> Judged(p, ch, k, r, t, y);
      assert t.rows[y] == r.rows[y];
      UntouchedVoice(p, ch, k, r, t, y);
    }
  }

  /** While a key has no representative after the first loop, nothing of its kind is tied to its root. */
  lemma UnspokenKeysHaveNoTies(p: Plan, ch: Offers, k: RepKey, r: Tally, t: Tally, y: AlarmId)
    requires Outcome(p, ch, k, r, t) && k !in r.reps && SameKind(p, y, k) && !p.rows[y].cleared
    ensures !TiedTo(r.rows[y], k.root)
  {
    if OrphanedIn(p, |p.orphans|, y) {
      assert Settled(p, ch, k, r, y);
    } else {
      assert !Orphaned(p.rows, y);
    }
  }

  lemma UntouchedVoice(p: Plan, ch: Offers, k: RepKey, r: Tally, t: Tally, y: AlarmId)
    requires Outcome(p, ch, k, r, t) && SpeaksFor(p, t.rows, k, y) && t.rows[y] == r.rows[y]
    requires !(VisibleIn(p, |p.visible|, y) && Claims(p, ch, Rec(p, y), k))
    ensures Voiced(p, ch, k)
  {
    assert Orphaned(p.rows, y) <==> OrphanedIn(p, |p.orphans|, y);
    assert Settled(p, ch, k, r, y) && OrphanClaims(p, ch, y, k);
    if k in p.reps {
      assert Stays(p.rows, ch, y);
      assert Standing(p, ch, k, y);
    }
  }

  lemma SceneOf(p: Plan, k: RepKey)
    requires FairPlan(p) && k.root in p.rows && p.rows[k.root].cleared
    ensures Scene(p, k)
  {
    hide WellDrawn, IsRepresentatives;
    forall i | 0 <= i < |p.visible|
      ensures p.visible[i].id in p.rows && OpenVisible(p.rows[p.visible[i].id]) &&
          p.visible[i] == Rec(p, p.visible[i].id)
    {
      assert p.visible[i] in p.visible;
    }
    forall i, j | 0 <= i < j < |p.visible| ensures p.visible[i].id != p.visible[j].id {
      assert p.visible[i] in p.visible && p.visible[j] in p.visible;
      assert Onset(p.visible[i], p.visible[j]);
    }
  }

  /** The loops are handed every orphaned and every visible alarm, and nothing else. */
  lemma LoopsSeeAll(p: Plan)
    requires ListsOrphans(p.rows, p.orphans) && ListsVisible(p.rows, p.visible)
    ensures forall id :: Orphaned(p.rows, id) <==> OrphanedIn(p, |p.orphans|, id)
    ensures forall id :: id in p.rows && OpenVisible(p.rows[id]) <==> VisibleIn(p, |p.visible|, id)
  {
    hide Orphaned, OpenVisible;
    forall id | id in p.rows && OpenVisible(p.rows[id]) ensures VisibleIn(p, |p.visible|, id) {
      assert Rec(p, id) in p.visible;
    }
    forall id | VisibleIn(p, |p.visible|, id) ensures id in p.rows && OpenVisible(p.rows[id]) {
      var i :| 0 <= i < |p.visible| && p.visible[i].id == id;
      assert p.visible[i] in p.visible;
    }
  }

  lemma RepresentativeSpeaks(p: Plan, k: RepKey)
    requires IsRepresentatives(p.rows, p.rooms, p.reps) && RoomsAgree(p) && k in p.reps
    ensures SpeaksFor(p, p.rows, k, p.reps[k])
  {
  }

  lemma OutcomeOf(p: Plan, k: RepKey)
    requires FairPlan(p) && RoomsAgree(p) && k.root in p.rows && p.rows[k.root].cleared
    ensures Scene(p, k)
    ensures Outcome(p, OffersOf(p), k, OrphanPass(p, |p.orphans|), AdoptPass(p, |p.visible|))
  {
    hide AdoptPass, OrphanPass, AfterAdoption, Chosen, WellDrawn, Scene, Settled, ListsCandidates, ListsVisible;
    hide ListsOrphans, IsRepresentatives, RoomsAgree, SpeaksFor, OrphanedIn, VisibleIn, Orphaned, OpenVisible;
    SceneOf(p, k);
    OrphansOnKey(p, OffersOf(p), k, |p.orphans|);
    AdoptionOnKey(p, OffersOf(p), k, OrphanPass(p, |p.orphans|), |p.visible|);
    FairPlansWorkOnOpen(p);
    ClearedAreUntouched(p, |p.visible|);
    LoopsSeeAll(p);
    if k in p.reps { RepresentativeSpeaks(p, k); }
  }

  /**
   At the end of a sweep, some alarm of the key's kind tied to its cleared root is in view if and only
   if the snapshots satisfy `Voiced`.
   */
  lemma ExactlyWhenVoiced(p: Plan, k: RepKey)
    requires FairPlan(p) && RoomsAgree(p) && k.root in p.rows && p.rows[k.root].cleared
    ensures HasVoice(p, Swept(p), k) <==> Voiced(p, OffersOf(p), k)
  {
    OutcomeOf(p, k);
    var ch, r, t := OffersOf(p), OrphanPass(p, |p.orphans|), AdoptPass(p, |p.visible|);
    VoicesSurviveRelease(p, t.rows, k);
    ExactlyOnOutcome(p, ch, k, r, t);
  }

  lemma VoicesSurviveRelease(p: Plan, rows: Rows, k: RepKey)
    ensures HasVoice(p, ReleaseAll(rows), k) <==> HasVoice(p, rows, k)
  {
    forall y ensures SpeaksFor(p, ReleaseAll(rows), k, y) <==> SpeaksFor(p, rows, k, y) {}
  }

  lemma ExactlyOnOutcome(p: Plan, ch: Offers, k: RepKey, r: Tally, t: Tally)
    requires Outcome(p, ch, k, r, t) && Scene(p, k)
    ensures HasVoice(p, t.rows, k) <==> Voiced(p, ch, k)
  {
    if HasVoice(p, t.rows, k) {
      var y :| SpeaksFor(p, t.rows, k, y);
      VoicesComeFromTheCondition(p, ch, k, r, t, y);
    }
    if Voiced(p, ch, k) {
      if k in p.reps {
        if Stays(p.rows, ch, p.reps[k]) { RepresentativeStays(p, ch, k, r, t); }
        else { var y :| Standing(p, ch, k, y); StandingStays(p, ch, k, r, t, y); }
      } else if y :| OrphanClaims(p, ch, y, k) {
        OrphanSpeaks(p, ch, k, r, t, y);
      } else {
        var a :| FirstClaim(p, ch, k, |p.visible|, a) && a !in p.reps.Values;
        FirstClaimSpeaks(p, ch, k, r, t, a);
      }
    }
  }

  /** Every alarm that speaks before the sweep is offered no root, or the one it has. */
  ghost predicate NoVoiceStrays(p: Plan) {
    forall k :: k in p.reps ==> Stays(p.rows, OffersOf(p), p.reps[k])
  }

  /** An alarm tied to the key's root at the end was a claimant of one loop or the other. */
  lemma TiesAreClaims(p: Plan, ch: Offers, k: RepKey, r: Tally, t: Tally, id: AlarmId)
    requires Outcome(p, ch, k, r, t) && SameKind(p, id, k) && !p.rows[id].cleared && TiedTo(t.rows[id], k.root)
    ensures k in r.reps || SomeClaim(p, ch, k, |p.visible|)
  {
    if VisibleIn(p, |p.visible|, id) {
      assert Judged(p, ch, k, r, t, id);
      var j :| 0 <= j < |p.visible| && p.visible[j].id == id;
    }
    if k !in r.reps { UnspokenKeysHaveNoTies(p, ch, k, r, t, id); }
  }

  lemma UnstrayingIsVoiced(p: Plan, ch: Offers, k: RepKey, r: Tally, t: Tally)
    requires Outcome(p, ch, k, r, t) && Scene(p, k)
    requires forall k' :: k' in p.reps ==> Stays(p.rows, ch, p.reps[k'])
    requires k in r.reps || SomeClaim(p, ch, k, |p.visible|)
    ensures Voiced(p, ch, k)
  {
    if k !in p.reps {
      if k in r.reps {
        assert OrphanClaims(p, ch, r.reps[k], k);
      } else {
        var a := t.reps[k];
        assert FirstClaim(p, ch, k, |p.visible|, a);
        if a in p.reps.Values {
          assert OrphanClaims(p, ch, a, k);
        }
      }
    }
  }

  /**
   Never a blank console: after a sweep, every open alarm hidden under a root that has cleared has an
   alarm of its own type in its own room, tied to the same root, in view, provided no alarm that
   already spoke was judged to another root.
   */
  lemma NeverBlank(p: Plan, id: AlarmId)
    requires FairPlan(p) && RoomsAgree(p) && NoVoiceStrays(p)
    requires id in Swept(p) && !Swept(p)[id].cleared && Swept(p)[id].isSymptom && Swept(p)[id].l5.Some?
    requires var root := Swept(p)[id].l5.value.root; root in p.rows && p.rows[root].cleared
    ensures id in p.rows
    ensures HasVoice(p, Swept(p), KeyFor(p.g, Rec(p, id), Swept(p)[id].l5.value.root))
  {
    FairPlansWorkOnOpen(p);
    ClearedAreUntouched(p, |p.visible|);
    var k := KeyFor(p.g, Rec(p, id), Swept(p)[id].l5.value.root);
    OutcomeOf(p, k);
    var ch, r, t := OffersOf(p), OrphanPass(p, |p.orphans|), AdoptPass(p, |p.visible|);
    TiesAreClaims(p, ch, k, r, t, id);
    UnstrayingIsVoiced(p, ch, k, r, t);
    ExactlyWhenVoiced(p, k);
  }
}
