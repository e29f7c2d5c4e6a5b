/**
 One voice per room: over a whole sweep, at most one alarm of each kind in each room speaks for a
 root, and which one it is can be read off the snapshots without running the loops.

 Both loops only ever file a name under a key that has none. So the name a key ends with is the one
 `representatives` returned, or else the first claim either loop makes; `Elected` says that, and
 `OneVoice` that every verdict of the second loop speaks or folds by it.
 */
module OneVoice {
  import opened Wrappers
  import opened CoolingTaxonomy
  import opened CoolingGraphs
  import opened RootChoice
  import opened AlarmTable
  import opened CoolingSweeps

  /** An alarm that would speak under a key, if the key has no name yet. */
  datatype Claim = Claim(key: RepKey, id: AlarmId)

  /** What a turn of the first loop claims: to speak for its old root, or worse than its new one. */
  function OrphanClaim(p: Plan, o: Orphan): Option<Claim> {
    var c := Choice(p.g, p.fires, o.record, p.candidates);
    if c.None? || c.value.id == o.oldRoot then Some(Claim(KeyFor(p.g, o.record, o.oldRoot), o.record.id))
    else if Worse(o.record, c.value) then Some(Claim(KeyFor(p.g, o.record, c.value.id), o.record.id))
    else None
  }

  /** What a turn of the second loop claims: to speak beside a root it is worse than. */
  function VisibleClaim(p: Plan, a: Record): Option<Claim> {
    var c := Choice(p.g, p.fires, a, p.candidates);
    if !Skipped(p, a) && c.Some? && Worse(a, c.value) then Some(Claim(KeyFor(p.g, a, c.value.id), a.id)) else None
  }

  /** Every claim of a sweep, in the order the loops come to them. */
  function Claims(p: Plan): seq<Option<Claim>> {
    seq(|p.orphans| + |p.visible|, i requires 0 <= i < |p.orphans| + |p.visible| =>
      if i < |p.orphans| then OrphanClaim(p, p.orphans[i]) else VisibleClaim(p, p.visible[i - |p.orphans|]))
  }

  /** The claims of the second loop stand after those of the first, in the order of the visible. */
  lemma ClaimsInOrder(p: Plan, claims: seq<Option<Claim>>, j: nat)
    requires claims == Claims(p)
    ensures j < |p.orphans| ==> claims[j] == OrphanClaim(p, p.orphans[j])
    ensures j < |p.visible| ==> claims[|p.orphans| + j] == VisibleClaim(p, p.visible[j])
  {
    hide OrphanClaim, VisibleClaim;
  }

  // ------------------------------------------------------------ first come, first named

  predicate IsFor(c: Option<Claim>, k: RepKey) {
    c.Some? && c.value.key == k
  }

  ghost predicate FirstFor(claims: seq<Option<Claim>>, k: RepKey, i: int) {
    0 <= i < |claims| && IsFor(claims[i], k) && forall j :: 0 <= j < i ==> !IsFor(claims[j], k)
  }

  function File(reps: map<RepKey, AlarmId>, c: Option<Claim>): map<RepKey, AlarmId> {
    if c.None? then reps else SetDefault(reps, c.value.key, c.value.id)
  }

  function Filed(reps: map<RepKey, AlarmId>, claims: seq<Option<Claim>>): map<RepKey, AlarmId> {
    if claims == [] then reps else File(Filed(reps, claims[..|claims| - 1]), claims[|claims| - 1])
  }

  /** Filing claims in order leaves each key with its old name, or else its first claimant. */
  lemma {:induction false} FirstClaimIsNamed(reps: map<RepKey, AlarmId>, claims: seq<Option<Claim>>, k: RepKey)
    ensures var all := Filed(reps, claims);
            && (k in reps ==> k in all && all[k] == reps[k])
            && (k !in reps ==>
                  && (k in all <==> exists i :: FirstFor(claims, k, i))
                  && forall i :: FirstFor(claims, k, i) ==> k in all && all[k] == claims[i].value.id)
  {
    if claims != [] {
      var init, last := claims[..|claims| - 1], |claims| - 1;
      FirstClaimIsNamed(reps, init, k);
      forall i ensures FirstFor(claims, k, i) <==> FirstFor(init, k, i) || (i == last && FirstFor(claims, k, last)) {
        if FirstFor(init, k, i) { assert init[i] == claims[i]; }
      }
      if k !in Filed(reps, init) && IsFor(claims[last], k) {
        forall j | 0 <= j < last ensures !IsFor(claims[j], k) {
          if IsFor(init[j], k) { var i := FirstOf(init, k, j); }
        }
        assert FirstFor(claims, k, last);
      }
    }
  }

  /** Whenever a key is claimed at all, some claim is the first. */
  lemma {:induction false} FirstOf(claims: seq<Option<Claim>>, k: RepKey, j: nat) returns (i: nat)
    requires j < |claims| && IsFor(claims[j], k)
    ensures FirstFor(claims, k, i) && i <= j
    decreases j
  {
    if m :| 0 <= m < j && IsFor(claims[m], k) { i := FirstOf(claims, k, m); } else { i := j; }
  }

  /** A name once filed stays. */
  lemma {:induction false} NamesStay(reps: map<RepKey, AlarmId>, claims: seq<Option<Claim>>, n: nat, k: RepKey)
    requires n <= |claims| && k in Filed(reps, claims[..n])
    ensures k in Filed(reps, claims) && Filed(reps, claims)[k] == Filed(reps, claims[..n])[k]
  {
    if n < |claims| {
      var init := claims[..|claims| - 1];
      assert init[..n] == claims[..n];
      NamesStay(reps, init, n, k);
    } else {
      assert claims[..n] == claims;
    }
  }

  // -------------------------------------------------------------- the loops only file

  lemma OrphanTurnFiles(p: Plan, t: Tally, o: Orphan)
    ensures OrphanStep(p, t, o).reps == File(t.reps, OrphanClaim(p, o))
  {
  }

  lemma VisibleTurnFiles(p: Plan, t: Tally, a: Record)
    ensures AdoptStep(p, t, a).reps == File(t.reps, VisibleClaim(p, a))
  {
  }

  lemma {:induction false} OrphansFile(p: Plan, claims: seq<Option<Claim>>, n: nat)
    requires n <= |p.orphans| && claims == Claims(p)
    ensures OrphanPass(p, n).reps == Filed(p.reps, claims[..n])
  {
    hide OrphanStep, OrphanClaim, VisibleClaim;
    if n > 0 {
      OrphansFile(p, claims, n - 1);
      assert claims[..n][..n - 1] == claims[..n - 1];
      OrphanTurnFiles(p, OrphanPass(p, n - 1), p.orphans[n - 1]);
    }
  }

  /** The names after n turns of the second loop are the claims so far, filed in order. */
  lemma {:induction false} LoopsFile(p: Plan, claims: seq<Option<Claim>>, n: nat)
    requires n <= |p.visible| && claims == Claims(p)
    ensures AdoptPass(p, n).reps == Filed(p.reps, claims[..|p.orphans| + n])
  {
    hide AdoptStep, OrphanPass, OrphanClaim, VisibleClaim;
    if n == 0 {
      OrphansFile(p, claims, |p.orphans|);
    } else {
      LoopsFile(p, claims, n - 1);
      var m := |p.orphans| + n;
      assert claims[..m][..m - 1] == claims[..m - 1];
      VisibleTurnFiles(p, AdoptPass(p, n - 1), p.visible[n - 1]);
    }
  }

  // ----------------------------------------------------------------- the election

  /** Who speaks for a key: the one `representatives` named, else the first to claim it. */
  ghost function Elected(p: Plan, k: RepKey): Option<AlarmId> {
    if k in p.reps then Some(p.reps[k])
    else if exists i :: FirstFor(Claims(p), k, i) then
      var i :| FirstFor(Claims(p), k, i); Some(Claims(p)[i].value.id)
    else None
  }

  /** The verdict of turn n of the second loop. */
  function VerdictAt(p: Plan, n: nat): Option<Root>
    requires n < |p.visible|
  {
    if Skipped(p, p.visible[n]) then None else Judge(p, p.visible[n], AdoptPass(p, n).reps)
  }

  function Named(reps: map<RepKey, AlarmId>, k: RepKey): Option<AlarmId> {
    if k in reps then Some(reps[k]) else None
  }

  lemma FirstIsUnique(claims: seq<Option<Claim>>, k: RepKey, i: int, j: int)
    requires FirstFor(claims, k, i) && FirstFor(claims, k, j)
    ensures i == j
  {
  }

  lemma FirstIsElected(p: Plan, claims: seq<Option<Claim>>, k: RepKey, i: int)
    requires claims == Claims(p) && k !in p.reps && FirstFor(claims, k, i)
    ensures Elected(p, k) == Some(claims[i].value.id)
  {
    var j :| FirstFor(claims, k, j) && Elected(p, k) == Some(claims[j].value.id);
    FirstIsUnique(claims, k, i, j);
  }

  lemma FiledAreElected(p: Plan, claims: seq<Option<Claim>>, k: RepKey)
    requires claims == Claims(p)
    ensures Elected(p, k) == Named(Filed(p.reps, claims), k)
  {
    FirstClaimIsNamed(p.reps, claims, k);
    if k !in p.reps && exists i :: FirstFor(claims, k, i) {
      var i :| FirstFor(claims, k, i);
      FirstIsElected(p, claims, k, i);
    }
  }

  /** At the end of a sweep the names are exactly the elected. */
  lemma NamesAreElected(p: Plan, k: RepKey)
    ensures Elected(p, k) == Named(AdoptPass(p, |p.visible|).reps, k)
  {
    hide AdoptPass, Elected, OrphanClaim, VisibleClaim;
    var claims := Claims(p);
    LoopsFile(p, claims, |p.visible|);
    assert claims[..|p.orphans| + |p.visible|] == claims;
    FiledAreElected(p, claims, k);
  }

  /**
   A claim made in place m is refused just when somebody else is elected: either a name was there
   already, or this claim is the one that is filed and stays.
   */
  lemma ClaimIsJudgedByTheElection(reps: map<RepKey, AlarmId>, claims: seq<Option<Claim>>, m: nat)
    requires m < |claims| && claims[m].Some?
    ensures var c, sofar, all := claims[m].value, Filed(reps, claims[..m]), Filed(reps, claims);
            c.key in all && (c.key in sofar && sofar[c.key] != c.id <==> all[c.key] != c.id)
  {
    var k := claims[m].value.key;
    assert claims[..m + 1][..m] == claims[..m];
    NamesStay(reps, claims, m + 1, k);
  }

  /** A verdict speaks when its alarm claims the key and nobody else is named there yet. */
  lemma VerdictFollowsTheNames(p: Plan, a: Record, reps: map<RepKey, AlarmId>)
    requires !Skipped(p, a) && Judge(p, a, reps).Some?
    ensures var v := Judge(p, a, reps).value;
            && v.representative == !v.suppress
            && (v.representative <==> Worse(a, v.record) && !SpokenFor(p.g, a, v.record.id, reps))
            && (Worse(a, v.record) ==> VisibleClaim(p, a) == Some(Claim(KeyFor(p.g, a, v.record.id), a.id)))
  {
  }

  /** `reps` are the names once the claims before turn n of the second loop are filed. */
  ghost predicate NamesBefore(p: Plan, n: nat, reps: map<RepKey, AlarmId>) {
    n <= |p.visible| && reps == Filed(p.reps, Claims(p)[..|p.orphans| + n])
  }

  lemma LoopNames(p: Plan, n: nat)
    requires n <= |p.visible|
    ensures NamesBefore(p, n, AdoptPass(p, n).reps)
  {
    LoopsFile(p, Claims(p), n);
  }

  /** When a claimant's turn comes, somebody else is named for its key just when somebody else is elected. */
  lemma SettledInTurn(p: Plan, claims: seq<Option<Claim>>, m: nat, c: Claim, reps: map<RepKey, AlarmId>)
    requires claims == Claims(p) && m < |claims| && claims[m] == Some(c) && reps == Filed(p.reps, claims[..m])
    ensures (c.key in reps && reps[c.key] != c.id) <==> Elected(p, c.key) != Some(c.id)
  {
    FiledAreElected(p, claims, c.key);
    ClaimIsJudgedByTheElection(p.reps, claims, m);
  }

  lemma WorseClaims(p: Plan, n: nat, a: Record, reps: map<RepKey, AlarmId>, v: Root)
    requires n < |p.visible| && a == p.visible[n] && !Skipped(p, a) && Judge(p, a, reps) == Some(v) &&
        Worse(a, v.record)
    ensures var m := |p.orphans| + n; m < |Claims(p)| && Claims(p)[m] == Some(Claim(KeyFor(p.g, a, v.record.id), a.id))
  {
    VerdictFollowsTheNames(p, a, reps);
    ClaimsInOrder(p, Claims(p), n);
  }

  lemma SpeaksIfElected(p: Plan, n: nat, a: Record, reps: map<RepKey, AlarmId>, v: Root)
    requires n < |p.visible| && a == p.visible[n] && !Skipped(p, a) && Judge(p, a, reps) == Some(v) &&
        NamesBefore(p, n, reps)
    ensures v.representative == !v.suppress
    ensures v.representative <==> Worse(a, v.record) && Elected(p, KeyFor(p.g, a, v.record.id)) == Some(a.id)
  {
    hide Judge, Elected, Claims, Worse, Skipped, Filed, VisibleClaim;
    var k := KeyFor(p.g, a, v.record.id);
    VerdictFollowsTheNames(p, a, reps);
    if Worse(a, v.record) {
      WorseClaims(p, n, a, reps, v);
      SettledInTurn(p, Claims(p), |p.orphans| + n, Claim(k, a.id), reps);
    }
  }

  /**
   One voice per room. Whatever the loops have named by the time they reach a visible alarm, it speaks
   exactly when it is worse than its root (or the root has cleared) and is the one elected for that
   root, room and alarm type; otherwise it is folded.
   */
  lemma OneVoice(p: Plan, n: nat)
    requires n < |p.visible| && VerdictAt(p, n).Some?
    ensures var a, v := p.visible[n], VerdictAt(p, n).value;
            && v.representative == !v.suppress
            && (v.representative <==> Worse(a, v.record) && Elected(p, KeyFor(p.g, a, v.record.id)) == Some(a.id))
  {
    LoopNames(p, n);
    SpeaksIfElected(p, n, p.visible[n], AdoptPass(p, n).reps, VerdictAt(p, n).value);
  }

  /** So no two turns of the second loop ever speak under one key. */
  lemma NoTwoSpeak(p: Plan, m: nat, n: nat)
    requires FairPlan(p) && m < n < |p.visible|
    requires VerdictAt(p, m).Some? && VerdictAt(p, m).value.representative
    requires VerdictAt(p, n).Some? && VerdictAt(p, n).value.representative
    ensures KeyFor(p.g, p.visible[m], VerdictAt(p, m).value.record.id) != KeyFor(p.g, p.visible[n],
        VerdictAt(p, n).value.record.id)
  {
    OneVoice(p, m);
    OneVoice(p, n);
    assert Onset(p.visible[m], p.visible[n]);
    DistinctVisible(p, m, n);
  }

  lemma DistinctVisible(p: Plan, m: nat, n: nat)
    requires ListsVisible(p.rows, p.visible) && m < n < |p.visible|
    ensures p.visible[m].id != p.visible[n].id
  {
    assert p.visible[m] in p.visible && p.visible[n] in p.visible;
    assert Onset(p.visible[m], p.visible[n]);
  }

  /** No orphaned alarm claims the key. */
  ghost predicate Unclaimed(p: Plan, k: RepKey) {
    forall i {:trigger p.orphans[i]} :: 0 <= i < |p.orphans| ==> !IsFor(OrphanClaim(p, p.orphans[i]), k)
  }

  /** The visible alarm in place j claims the key, and every other that does began later. */
  ghost predicate OldestClaimant(p: Plan, k: RepKey, j: int) {
    && 0 <= j < |p.visible| && IsFor(VisibleClaim(p, p.visible[j]), k)
    && forall m {:trigger p.visible[m]} :: 0 <= m < |p.visible| && m != j && IsFor(VisibleClaim(p, p.visible[m]), k) ==>
         Onset(p.visible[j], p.visible[m])
  }

  /** The first claim on a key that no orphaned alarm claims is a visible alarm's. */
  lemma FirstIsVisible(p: Plan, k: RepKey, n: nat) returns (j: nat)
    requires n < |p.visible| && IsFor(VisibleClaim(p, p.visible[n]), k) && Unclaimed(p, k)
    ensures j < |p.visible| && FirstFor(Claims(p), k, |p.orphans| + j)
  {
    hide OrphanClaim, VisibleClaim;
    var claims := Claims(p);
    ClaimsInOrder(p, claims, n);
    var i := FirstOf(claims, k, |p.orphans| + n);
    if i < |p.orphans| {
      ClaimsInOrder(p, claims, i);
      assert false;
    }
    j := i - |p.orphans|;
  }

  lemma ClaimantIsTheAlarm(p: Plan, a: Record)
    ensures VisibleClaim(p, a).Some? ==> VisibleClaim(p, a).value.id == a.id
  {
  }

  lemma FirstIsOldest(p: Plan, k: RepKey, j: nat)
    requires ListsVisible(p.rows, p.visible) && j < |p.visible| && FirstFor(Claims(p), k, |p.orphans| + j)
    ensures OldestClaimant(p, k, j)
  {
    ClaimsInOrder(p, Claims(p), j);
    forall m {:trigger p.visible[m]} | 0 <= m < |p.visible| && m != j && IsFor(VisibleClaim(p, p.visible[m]), k)
      ensures Onset(p.visible[j], p.visible[m])
    {
      ClaimsInOrder(p, Claims(p), m);
      assert !(m < j);
    }
  }

  /**
   Where nobody was named before and no orphaned alarm claims the key, the one elected is the oldest
   visible claimant.
   */
  lemma TheOldestIsElected(p: Plan, k: RepKey, n: nat) returns (j: nat)
    requires ListsVisible(p.rows, p.visible) && n < |p.visible| && IsFor(VisibleClaim(p, p.visible[n]), k)
    requires k !in p.reps && Unclaimed(p, k)
    ensures OldestClaimant(p, k, j) && Elected(p, k) == Some(p.visible[j].id)
  {
    hide Elected, OldestClaimant, VisibleClaim, OrphanClaim, Unclaimed;
    j := FirstIsVisible(p, k, n);
    FirstIsOldest(p, k, j);
    FirstIsElected(p, Claims(p), k, |p.orphans| + j);
    ClaimsInOrder(p, Claims(p), j);
    ClaimantIsTheAlarm(p, p.visible[j]);
  }
}
