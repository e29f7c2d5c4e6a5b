/**
 Re-wrapping every stored credential under a new key, in committed batches. `Rotate` is the loop as it
 runs, with every state it commits: a crash leaves the table in one of those. Whatever was readable
 stays readable with the same plaintext in all of them, and running again from any of them ends where
 an uninterrupted run would have.
 */
module KeyRotation {
  import opened Wrappers

  type RowId = int
  type Plain = string
  type Blob = string
  /** The ring entry a row names; none is the default key itself. */
  type KeyId = Option<string>

  datatype Credential = Credential(blob: Blob, key: KeyId)

  type Table = map<RowId, Credential>

  /** Encryption draws a fresh nonce; decryption fails for a key out of the ring or a blob that is not its own. */
  datatype Crypto = Crypto(encrypt: (KeyId, Plain, int) -> Blob, decrypt: (KeyId, Blob) -> Option<Plain>)

  /** Decryption undoes encryption under the same key. */
  ghost predicate Inverse(c: Crypto, key: KeyId) {
    forall p, nonce :: c.decrypt(key, c.encrypt(key, p, nonce)) == Some(p)
  }

  datatype Result = Result(migrated: nat, skipped: int, failed: seq<RowId>)

  function Read(c: Crypto, r: Credential): Option<Plain> {
    c.decrypt(r.key, r.blob)
  }

  /** A row the loop re-wraps: not at the target key yet, and readable. */
  predicate Migrates(c: Crypto, target: KeyId, r: Credential) {
    r.key != target && Read(c, r).Some?
  }

  predicate Fails(c: Crypto, target: KeyId, r: Credential) {
    r.key != target && Read(c, r).None?
  }

  ghost predicate RowRewrapped(c: Crypto, target: KeyId, before: Credential, after: Credential) {
    after.key == target && exists nonce ::
      Read(c, before).Some? && after.blob == c.encrypt(target, Read(c, before).value, nonce)
  }

  /** The rows in `done` that could be migrated have been, blob and key id together; no other row differs. */
  ghost predicate Rewrapped(c: Crypto, target: KeyId, before: Table, done: set<RowId>, after: Table) {
    after.Keys == before.Keys &&
    forall id :: id in before ==>
      if id in done && Migrates(c, target, before[id]) then RowRewrapped(c, target, before[id], after[id])
      else after[id] == before[id]
  }

  ghost predicate PartWay(c: Crypto, target: KeyId, before: Table, after: Table) {
    exists done :: Rewrapped(c, target, before, done, after)
  }

  ghost predicate NoneTwice(ids: seq<RowId>) {
    forall i, j :: 0 <= i < j < |ids| ==> ids[i] != ids[j]
  }

  /** The rows not at the target yet, none twice, in any order. */
  ghost predicate ListsPending(t: Table, target: KeyId, ids: seq<RowId>) {
    NoneTwice(ids) && forall id :: id in ids <==> id in t && t[id].key != target
  }

  /** The rows the loop cannot read, none twice. */
  ghost predicate ListsFailed(c: Crypto, t: Table, target: KeyId, ids: seq<RowId>) {
    NoneTwice(ids) && forall id :: id in ids <==> id in t && Fails(c, target, t[id])
  }

  function First(pending: seq<RowId>, k: nat): set<RowId>
    requires k <= |pending|
  {
    set id | id in pending[..k]
  }

  class Store {
    var live: Table
    var committed: Table

    constructor (t: Table)
      ensures live == committed == t
    {
      live, committed := t, t;
    }

    /** The rows not at the target yet, in whatever order the database lists them, and how many are left out. */
    method Pending(target: KeyId) returns (pending: seq<RowId>, skipped: int)
      ensures ListsPending(live, target, pending)
      ensures skipped == |live| - |pending| && 0 <= skipped
    {
      pending, skipped := [], 0;
      var todo := live.Keys;
      while todo != {}
        invariant todo <= live.Keys && |pending| + skipped + |todo| == |live| && 0 <= skipped
        invariant NoneTwice(pending) && forall id :: id in pending <==>
            id in live && id !in todo && live[id].key != target
        decreases todo
      {
        NonEmpty(todo);
        var id :| id in todo;
        if live[id].key != target { pending := pending + [id]; } else { skipped := skipped + 1; }
        todo := todo - {id};
      }
    }

    method Update(id: RowId, blob: Blob, key: KeyId)
      modifies this`live
      ensures live == if id in old(live) then old(live)[id := Credential(blob, key)] else old(live)
    {
      if id in live { live := live[id := Credential(blob, key)]; }
    }

    method Commit()
      modifies this`committed
      ensures committed == live
    {
      committed := live;
    }

    /** One batch: rows read from the snapshot, decrypted under their own key, written back under the target. */
    method RewrapBatch(c: Crypto, target: KeyId, rows: Table, pending: seq<RowId>, from: nat, to: nat, r: Result)
      returns (r': Result)
      requires from <= to <= |pending| && ListsPending(rows, target, pending)
      requires Rewrapped(c, target, rows, First(pending, from), live) && Tallied(c, rows, pending, from, r)
      modifies this`live
      ensures Rewrapped(c, target, rows, First(pending, to), live) && Tallied(c, rows, pending, to, r')
      ensures r'.skipped == r.skipped
    {
      r' := r;
      for k := from to to
        invariant Rewrapped(c, target, rows, First(pending, k), live) && Tallied(c, rows, pending, k, r')
        invariant r'.skipped == r.skipped
      {
        var id := pending[k];
        var plain := c.decrypt(rows[id].key, rows[id].blob);
        TallyOneMore(c, rows, pending, k, r');
        ghost var was := live;
        if plain.None? {
          r' := r'.(failed := r'.failed + [id]);
        } else {
          var nonce: int := *;
          Update(id, c.encrypt(target, plain.value, nonce), target);
          r' := r'.(migrated := r'.migrated + 1);
          assert RowRewrapped(c, target, rows[id], live[id]);
        }
        RewrapOneMore(c, target, rows, pending, k, was, live);
      }
    }

    /** One batch and, when every batch is committed, its commit. */
    method Step(c: Crypto, target: KeyId, rows: Table, pending: seq<RowId>, from: nat, to: nat, r: Result, commit: bool)
      returns (r': Result, ghost states: seq<Table>)
      requires Midway(c, target, rows, pending, from, live, r) && from <= to <= |pending|
      modifies this
      ensures Midway(c, target, rows, pending, to, live, r') && r'.skipped == r.skipped &&
          PartWay(c, target, rows, live)
      ensures committed == (if commit then live else old(committed)) && states == (if commit then [live] else [])
    {
      r' := RewrapBatch(c, target, rows, pending, from, to, r);
      states := [];
      var done := First(pending, to);
      assert Rewrapped(c, target, rows, done, live);
      if commit {
        Commit();
        states := [live];
      }
    }

    /** The loop over the batches. */
    method Batches(c: Crypto, target: KeyId, rows: Table, pending: seq<RowId>, batchSize: int, r: Result,
        commitEvery: bool)
      returns (r': Result, ghost commits: seq<Table>)
      requires batchSize > 0 && Midway(c, target, rows, pending, 0, live, r)
      modifies this
      ensures Midway(c, target, rows, pending, |pending|, live, r') && r'.skipped == r.skipped
      ensures forall i :: 0 <= i < |commits| ==> PartWay(c, target, rows, commits[i])
      ensures committed == if commits == [] then old(committed) else commits[|commits| - 1]
      ensures commitEvery ==> if pending == [] then commits == [] else committed == live
    {
      hide Midway, PartWay;
      r', commits := r, [];
      var i := 0;
      while i < |pending|
        invariant 0 <= i && Midway(c, target, rows, pending, if i < |pending| then i else |pending|, live, r') &&
            r'.skipped == r.skipped
        invariant forall j :: 0 <= j < |commits| ==> PartWay(c, target, rows, commits[j])
        invariant committed == if commits == [] then old(committed) else commits[|commits| - 1]
        invariant (pending == [] ==> i == 0) && (commitEvery ==> if i == 0 then commits == [] else committed == live)
        decreases |pending| - i
      {
        var end := if i + batchSize <= |pending| then i + batchSize else |pending|;
        ghost var states;
        r', states := Step(c, target, rows, pending, i, end, r', commitEvery);
        commits := commits + states;
        i := i + batchSize;
      }
    }

    /**
     `rotate`. `r` is none when the batch size is zero: `range` raises. `commits` are the states the
     run committed, in order.
     */
    method Rotate(c: Crypto, target: KeyId, batchSize: int, commitEvery: bool)
        returns (r: Option<Result>, ghost commits: seq<Table>)
      modifies this
      ensures r.None? <==> batchSize == 0
      ensures batchSize <= 0 ==> live == old(live) && commits == []
      ensures batchSize < 0 ==> r.value.migrated == 0 && r.value.failed == []
      ensures r.Some? ==> r.value.skipped == |old(live)| - |Outdated(old(live), target)|
      ensures batchSize > 0 ==> Rewrapped(c, target, old(live), old(live).Keys, live)
      ensures batchSize > 0 ==> ListsFailed(c, old(live), target, r.value.failed)
      ensures batchSize > 0 ==> r.value.migrated + r.value.skipped + |r.value.failed| == |old(live)|
      ensures forall i :: 0 <= i < |commits| ==> PartWay(c, target, old(live), commits[i])
      ensures committed == if commits == [] then old(committed) else commits[|commits| - 1]
      ensures commitEvery && batchSize > 0 && Outdated(old(live), target) != {} ==> committed == live
    {
      commits := [];
      var rows := live;
      var pending, skipped := Pending(target);
      OutdatedAre(rows, target, pending);
      if batchSize == 0 { return None, []; }
      var result := Result(0, skipped, []);
      if batchSize < 0 { return Some(result), []; }
      result, commits := Batches(c, target, rows, pending, batchSize, result, commitEvery);
      AllDone(c, target, rows, pending, live, result);
      assert pending == [] ==> |Outdated(rows, target)| == 0;
      r := Some(result);
    }
  }

  /** The first `k` pending rows are done, and tallied. */
  ghost predicate Midway(c: Crypto, target: KeyId, rows: Table, pending: seq<RowId>, k: nat, live: Table, r: Result) {
    k <= |pending| && ListsPending(rows, target, pending) && Rewrapped(c, target, rows, First(pending, k), live) &&
    Tallied(c, rows, pending, k, r)
  }

  function Outdated(t: Table, target: KeyId): set<RowId> {
    set id | id in t && t[id].key != target
  }

  /** The counters after the first `k` pending rows. */
  ghost predicate Tallied(c: Crypto, rows: Table, pending: seq<RowId>, k: nat, r: Result) {
    && k <= |pending| && r.migrated + |r.failed| == k
    && NoneTwice(r.failed)
    && forall id :: id in r.failed <==> id in pending[..k] && id in rows && Read(c, rows[id]).None?
  }

  lemma TallyOneMore(c: Crypto, rows: Table, pending: seq<RowId>, k: nat, r: Result)
    requires k < |pending| && Tallied(c, rows, pending, k, r) && pending[k] in rows
    requires NoneTwice(pending)
    ensures Read(c, rows[pending[k]]).None? ==> Tallied(c, rows, pending, k + 1, r.(failed := r.failed + [pending[k]]))
    ensures Read(c, rows[pending[k]]).Some? ==> Tallied(c, rows, pending, k + 1, r.(migrated := r.migrated + 1))
  {
    assert pending[..k + 1] == pending[..k] + [pending[k]];
    assert pending[k] !in pending[..k];
  }

  lemma RewrapOneMore(c: Crypto, target: KeyId, rows: Table, pending: seq<RowId>, k: nat, was: Table, live: Table)
    requires k < |pending| && ListsPending(rows, target, pending) && pending[k] in rows
    requires Rewrapped(c, target, rows, First(pending, k), was)
    requires Read(c, rows[pending[k]]).None? ==> live == was
    requires Read(c, rows[pending[k]]).Some? ==>
               live.Keys == was.Keys && RowRewrapped(c, target, rows[pending[k]], live[pending[k]]) &&
               forall id :: id in was && id != pending[k] ==> live[id] == was[id]
    ensures Rewrapped(c, target, rows, First(pending, k + 1), live)
  {
    assert pending[..k + 1] == pending[..k] + [pending[k]];
  }

  lemma AllDone(c: Crypto, target: KeyId, rows: Table, pending: seq<RowId>, live: Table, r: Result)
    requires Midway(c, target, rows, pending, |pending|, live, r)
    ensures Rewrapped(c, target, rows, rows.Keys, live) && ListsFailed(c, rows, target, r.failed)
    ensures r.migrated + |r.failed| == |pending|
  {
    assert pending[..|pending|] == pending;
  }

  lemma OutdatedAre(rows: Table, target: KeyId, pending: seq<RowId>)
    requires ListsPending(rows, target, pending)
    ensures |pending| == |Outdated(rows, target)|
  {
    DistinctSize(pending);
    assert Outdated(rows, target) == set id | id in pending;
  }

  lemma {:induction false} DistinctSize(q: seq<RowId>)
    requires NoneTwice(q)
    ensures |set id | id in q| == |q|
  {
    var ids := set id | id in q;
    if |q| > 0 {
      var last, init := q[|q| - 1], q[..|q| - 1];
      assert q == init + [last];
      DistinctSize(init);
      assert last !in init;
      assert ids == (set id | id in init) + {last};
    }
  }

  // ------------------------------------------------------------------- crash and resume

  /** What a reader gets from a table: each row's key id, and the plaintext where it can be had. */
  function View(c: Crypto, t: Table): map<RowId, (KeyId, Option<Plain>)> {
    map id | id in t :: (t[id].key, Read(c, t[id]))
  }

  /**
   What an uninterrupted run is to leave: every readable row at the target with its plaintext, the rest as
   they are.
   */
  function Goal(c: Crypto, target: KeyId, t: Table): map<RowId, (KeyId, Option<Plain>)> {
    map id | id in t :: (if Read(c, t[id]).Some? then target else t[id].key, Read(c, t[id]))
  }

  /**
   In every committed state each readable row still reads as it did under its own key id, and no unreadable
   row has changed.
   */
  lemma NothingIsLost(c: Crypto, target: KeyId, before: Table, after: Table, id: RowId)
    requires Inverse(c, target) && PartWay(c, target, before, after) && id in before
    ensures id in after
    ensures Read(c, before[id]).Some? ==> Read(c, after[id]) == Read(c, before[id])
    ensures Read(c, before[id]).None? ==> after[id] == before[id]
  {
    if after[id] != before[id] { RowKeepsItsPlaintext(c, target, before[id], after[id]); }
  }

  lemma RowKeepsItsPlaintext(c: Crypto, target: KeyId, before: Credential, after: Credential)
    requires Inverse(c, target) && RowRewrapped(c, target, before, after)
    ensures after.key == target && Read(c, after) == Read(c, before)
  {
    var nonce :| after.blob == c.encrypt(target, Read(c, before).value, nonce);
    var back := c.decrypt(target, c.encrypt(target, Read(c, before).value, nonce));
    assert back == Some(Read(c, before).value);
  }

  /** A complete run leaves what it is to leave. */
  lemma CompleteRunReachesTheGoal(c: Crypto, target: KeyId, before: Table, after: Table)
    requires Inverse(c, target) && Rewrapped(c, target, before, before.Keys, after)
    ensures View(c, after) == Goal(c, target, before)
  {
    forall id | id in before ensures View(c, after)[id] == Goal(c, target, before)[id] {
      if Migrates(c, target, before[id]) { RowKeepsItsPlaintext(c, target, before[id], after[id]); }
    }
  }

  /** A crash part way does not move the goal. */
  lemma CrashKeepsTheGoal(c: Crypto, target: KeyId, before: Table, after: Table)
    requires Inverse(c, target) && PartWay(c, target, before, after)
    ensures Goal(c, target, after) == Goal(c, target, before)
  {
    forall id | id in before ensures Goal(c, target, after)[id] == Goal(c, target, before)[id] {
      if after[id] != before[id] { RowKeepsItsPlaintext(c, target, before[id], after[id]); }
    }
  }

  /** A table, and what it was after each crash; the next run starts from there. */
  ghost predicate Crashes(c: Crypto, target: KeyId, states: seq<Table>) {
    |states| > 0 && forall i :: 0 <= i < |states| - 1 ==> PartWay(c, target, states[i], states[i + 1])
  }

  lemma {:induction false} CrashesKeepTheGoal(c: Crypto, target: KeyId, states: seq<Table>, n: nat)
    requires Inverse(c, target) && Crashes(c, target, states) && n < |states|
    ensures Goal(c, target, states[n]) == Goal(c, target, states[0])
  {
    if n > 0 {
      CrashesKeepTheGoal(c, target, states, n - 1);
      CrashKeepsTheGoal(c, target, states[n - 1], states[n - 1 + 1]);
    }
  }

  /**
   After any number of crashes, the run that completes leaves the same key ids and plaintexts as one
   that was never interrupted, whatever nonces either drew.
   */
  lemma ResumedRunsEndAlike(c: Crypto, target: KeyId, states: seq<Table>, resumed: Table, straight: Table)
    requires Inverse(c, target) && Crashes(c, target, states)
    requires Rewrapped(c, target, states[|states| - 1], states[|states| - 1].Keys, resumed)
    requires Rewrapped(c, target, states[0], states[0].Keys, straight)
    ensures View(c, resumed) == View(c, straight)
  {
    CrashesKeepTheGoal(c, target, states, |states| - 1);
    CompleteRunReachesTheGoal(c, target, states[|states| - 1], resumed);
    CompleteRunReachesTheGoal(c, target, states[0], straight);
  }

  /** And running once more after a complete run rewrites nothing. */
  lemma CompleteRunsAreDone(c: Crypto, target: KeyId, before: Table, after: Table, again: Table)
    requires Inverse(c, target) && Rewrapped(c, target, before, before.Keys, after)
    requires Rewrapped(c, target, after, after.Keys, again)
    ensures again == after
  {
    forall id | id in after ensures again[id] == after[id] {
      if Migrates(c, target, before[id]) { RowKeepsItsPlaintext(c, target, before[id], after[id]); }
    }
  }
}
