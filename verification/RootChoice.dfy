/**
 `pick_root`: which open or recently cleared alarm best explains a symptom, and
 whether the symptom is then folded or speaks for its room.

 `Best` is the loop's answer over a list; `BestIsTheMinimum` says what it means without
 the loop. `Verdict` adds the folding decision, which never feeds back into the choice.
 */
module RootChoice {
  import opened Wrappers
  import opened CoolingTaxonomy
  import opened CoolingGraphs

  type AlarmId = int

  /** Times are microseconds since the epoch. */
  type Time = int

  const SECOND: Time := 1_000_000
  /** A root may start this long after its symptom... */
  const LEAD: Time := 600 * SECOND
  /** ...and no more than this long before it. */
  const LAG: Time := 3600 * SECOND

  /** An alarm as `pick_root` is handed it; `cleared` marks a root inside the restoration hold. */
  datatype Record = Record(
    id: AlarmId, device: DeviceId, alarmType: string, instance: string, category: Option<string>,
    metric: Option<string>, severity: string, firstSeen: Time, cleared: bool)

  /** (root, room, alarm type): what one visible alarm can speak for. */
  datatype RepKey = RepKey(root: AlarmId, room: Option<RoomId>, alarmType: string)

  datatype Root = Root(record: Record, tier: Tier, suppress: bool, representative: bool)

  /** The alarm's own device and type let it be a consequence at all. */
  predicate TakesPart(g: Topology, sym: Record) {
    sym.device in g.nodes && SymptomEligible(sym.alarmType, sym.category, TierOf(g, sym.device), sym.metric)
  }

  /** The test of lines 339-347: peers are not causes, except along a drawn edge inside the plant. */
  predicate TierGuard(own: Tier, at: Tier) {
    !(Rank(at) < Rank(own) || (Rank(at) == Rank(own) && at != Plant))
  }

  predicate InWindow(tRoot: Time, tSym: Time) {
    tSym - LAG <= tRoot <= tSym + LEAD
  }

  /** `a` survives every test of the loop against `sym`, given the symptom's ancestors. */
  predicate Explains(g: Topology, anc: map<DeviceId, Tier>, fires: set<RoomId>, sym: Record, a: Record) {
    && a.device in anc
    && a.id != sym.id
    && (TierOf(g, sym.device).Some? ==> TierGuard(TierOf(g, sym.device).value, anc[a.device]))
    && RootEligible(a.alarmType, a.category, anc[a.device], a.instance)
    && !(anc[a.device] in {Unit, Plant} && RoomOf(g, a.device).Some? && RoomOf(g, a.device).value in fires)
    && InWindow(a.firstSeen, sym.firstSeen)
  }

  /** The tuple order of the loop's key: highest tier, open before cleared, earliest, smallest id. */
  predicate Before(anc: map<DeviceId, Tier>, a: Record, b: Record)
    requires a.device in anc && b.device in anc
  {
    var ra, rb := Rank(anc[a.device]), Rank(anc[b.device]);
    ra > rb ||
    (ra == rb &&
     ((!a.cleared && b.cleared) ||
      (a.cleared == b.cleared &&
       (a.firstSeen < b.firstSeen || (a.firstSeen == b.firstSeen && a.id < b.id)))))
  }

  /** The candidate the loop is left holding after a list. */
  function Best(g: Topology, anc: map<DeviceId, Tier>, fires: set<RoomId>, sym: Record,
      open: seq<Record>): (r: Option<Record>)
    ensures r.Some? ==> r.value in open && Explains(g, anc, fires, sym, r.value)
  {
    if open == [] then None
    else
      var best := Best(g, anc, fires, sym, open[..|open| - 1]);
      var a := open[|open| - 1];
      if Explains(g, anc, fires, sym, a) && (best.None? || Before(anc, a, best.value)) then Some(a) else best
  }

  ghost predicate DistinctIds(open: seq<Record>) {
    forall i, j :: 0 <= i < j < |open| ==> open[i].id != open[j].id
  }

  /** `a` explains the symptom and no other explaining alarm comes before it. */
  ghost predicate Least(g: Topology, anc: map<DeviceId, Tier>, fires: set<RoomId>, sym: Record, open: seq<Record>,
      a: Record)
  {
    && a in open
    && Explains(g, anc, fires, sym, a)
    && forall b :: b in open && Explains(g, anc, fires, sym, b) ==> !Before(anc, b, a)
  }

  lemma {:induction false} BestIsLeast(g: Topology, anc: map<DeviceId, Tier>, fires: set<RoomId>, sym: Record,
      open: seq<Record>)
    ensures Best(g, anc, fires, sym, open).Some? ==>
        Least(g, anc, fires, sym, open, Best(g, anc, fires, sym, open).value)
    ensures Best(g, anc, fires, sym, open).None? ==> forall b :: b in open ==> !Explains(g, anc, fires, sym, b)
  {
    if open != [] {
      var init, a := open[..|open| - 1], open[|open| - 1];
      assert open == init + [a];
      BestIsLeast(g, anc, fires, sym, init);
    }
  }

  /**
   With distinct ids, the choice is exactly the lexicographic minimum, and there is none just when nothing
   explains.
   */
  lemma BestIsTheMinimum(g: Topology, anc: map<DeviceId, Tier>, fires: set<RoomId>, sym: Record, open: seq<Record>,
      a: Record)
    requires DistinctIds(open)
    ensures Best(g, anc, fires, sym, open) == Some(a) <==> Least(g, anc, fires, sym, open, a)
    ensures Best(g, anc, fires, sym, open) == None <==> forall b :: b in open ==> !Explains(g, anc, fires, sym, b)
  {
    BestIsLeast(g, anc, fires, sym, open);
    var r := Best(g, anc, fires, sym, open);
    if Least(g, anc, fires, sym, open, a) && r.Some? {
      assert !Before(anc, r.value, a) && !Before(anc, a, r.value);
      assert r.value.id == a.id;
      var i :| 0 <= i < |open| && open[i] == a;
      var j :| 0 <= j < |open| && open[j] == r.value;
      assert i == j;
    }
  }

  /** The order the candidates are listed in does not matter. */
  lemma BestIgnoresOrder(g: Topology, anc: map<DeviceId, Tier>, fires: set<RoomId>, sym: Record, s: seq<Record>,
      t: seq<Record>)
    requires DistinctIds(s) && DistinctIds(t)
    requires forall a :: a in s <==> a in t
    ensures Best(g, anc, fires, sym, s) == Best(g, anc, fires, sym, t)
  {
    var r := Best(g, anc, fires, sym, s);
    BestIsLeast(g, anc, fires, sym, s);
    if r.Some? {
      BestIsTheMinimum(g, anc, fires, sym, t, r.value);
    } else {
      BestIsLeast(g, anc, fires, sym, t);
    }
  }

  /** Which alarm `pick_root` names for a symptom: no severity and no representative enters into it. */
  function Choice(g: Topology, fires: set<RoomId>, sym: Record, open: seq<Record>): (r: Option<Record>)
    ensures r.Some? ==>
              TakesPart(g, sym) && r.value in open && Explains(g, Ancestry(g, sym.device), fires, sym, r.value)
  {
    if TakesPart(g, sym) then Best(g, Ancestry(g, sym.device), fires, sym, open) else None
  }

  /** The tier test inside the loop never rejects anything the ancestors let through. */
  lemma TierGuardNeverRejects(g: Topology, d: DeviceId, x: DeviceId)
    requires WellDrawn(g) && x in Ancestry(g, d)
    ensures TierOf(g, d).Some? && TierGuard(TierOf(g, d).value, Ancestry(g, d)[x])
  {
    AncestorsStandAbove(g, d, x);
  }

  /** A consequence worse than its cause, or whose cause has cleared, speaks for itself. */
  predicate Worse(sym: Record, root: Record) {
    SeverityRank(sym.severity) < SeverityRank(root.severity) || root.cleared
  }

  function KeyFor(g: Topology, sym: Record, root: AlarmId): RepKey {
    RepKey(root, RoomOf(g, sym.device), sym.alarmType)
  }

  /** Another alarm already speaks for this kind of consequence of the root in the symptom's room. */
  predicate SpokenFor(g: Topology, sym: Record, root: AlarmId, reps: map<RepKey, AlarmId>) {
    KeyFor(g, sym, root) in reps && reps[KeyFor(g, sym, root)] != sym.id
  }

  /** What `pick_root` returns. */
  function Verdict(
    g: Topology, fires: set<RoomId>, sym: Record, open: seq<Record>, reps: map<RepKey, AlarmId>): (r: Option<Root>)
  {
    var choice := Choice(g, fires, sym, open);
    if choice.None? then None
    else
      var a := choice.value;
      var worse := Worse(sym, a);
      var suppress := !worse || SpokenFor(g, sym, a.id, reps);
      Some(Root(a, Ancestry(g, sym.device)[a.device], suppress, worse && !suppress))
  }

  /**
   A symptom is folded exactly when its root is open and no less severe, or another alarm already
   speaks for it; otherwise it is the one that speaks.
   */
  lemma FoldedOrSpeaking(
    g: Topology, fires: set<RoomId>, sym: Record, open: seq<Record>, reps: map<RepKey, AlarmId>)
    requires Verdict(g, fires, sym, open, reps).Some?
    ensures var r := Verdict(g, fires, sym, open, reps).value;
            && r.record in open
            && r.representative == !r.suppress
            && (r.suppress <==>
                  (!r.record.cleared && SeverityRank(r.record.severity) <= SeverityRank(sym.severity)) ||
                  SpokenFor(g, sym, r.record.id, reps))
  {
  }

  /** Re-judging an alarm under other representatives, or at another severity, names the same root at the same tier. */
  lemma ChoiceIgnoresVoices(
    g: Topology, fires: set<RoomId>, sym: Record, open: seq<Record>, reps: map<RepKey, AlarmId>,
    reps': map<RepKey, AlarmId>, severity: string)
    requires WellDrawn(g)
    ensures var r, r' := Verdict(g, fires, sym, open, reps), Verdict(g, fires, sym.(severity := severity), open, reps');
            r.Some? == r'.Some? && (r.Some? ==> r.value.record == r'.value.record && r.value.tier == r'.value.tier)
  {
    var sym' := sym.(severity := severity);
    if TakesPart(g, sym) {
      SeverityDoesNotChoose(g, Ancestry(g, sym.device), fires, sym, severity, open);
    }
  }

  lemma {:induction false} SeverityDoesNotChoose(
    g: Topology, anc: map<DeviceId, Tier>, fires: set<RoomId>, sym: Record, severity: string, open: seq<Record>)
    ensures Best(g, anc, fires, sym, open) == Best(g, anc, fires, sym.(severity := severity), open)
  {
    if open != [] {
      SeverityDoesNotChoose(g, anc, fires, sym, severity, open[..|open| - 1]);
    }
  }

  /** `pick_root` over the graph object: the loop with its running `best`. */
  method PickRoot(
    graph: CoolingGraph, sym: Record, open: seq<Record>, fires: set<RoomId>, reps: map<RepKey, AlarmId>)
    returns (r: Option<Root>)
    requires graph.Valid()
    modifies graph`memo
    ensures graph.Valid() && graph.Drawn() == old(graph.Drawn())
    ensures r == Verdict(graph.Drawn(), fires, sym, open, reps)
  {
    hide IsThermal, IsCoolingCondition, Ancestry;
    ghost var g := graph.Drawn();
    if sym.device !in graph.nodes { return None; }
    var node := graph.nodes[sym.device];
    if !SymptomEligible(sym.alarmType, sym.category, DeviceTier(node.deviceType), sym.metric) { return None; }
    var anc := graph.Ancestors(sym.device);
    if anc == map[] { return None; }
    var best: Option<Record> := None;
    for i := 0 to |open|
      invariant graph.Drawn() == g
      invariant best == Best(g, anc, fires, sym, open[..i])
    {
      assert open[..i + 1][..i] == open[..i];
      var a := open[i];
      if a.device !in anc || a.id == sym.id { continue; }
      var at := anc[a.device];
      var tier := DeviceTier(node.deviceType);
      if tier.Some? && (Rank(at) < Rank(tier.value) || (Rank(at) == Rank(tier.value) && at != Plant)) { continue; }
      if !RootEligible(a.alarmType, a.category, at, a.instance) { continue; }
      if a.device in graph.nodes && at in {Unit, Plant} && graph.nodes[a.device].room.Some?
         && graph.nodes[a.device].room.value in fires { continue; }
      if !(sym.firstSeen - LAG <= a.firstSeen <= sym.firstSeen + LEAD) { continue; }
      if best.None? || Before(anc, a, best.value) { best := Some(a); }
    }
    assert open[..|open|] == open;
    if best.None? { return None; }
    var root := best.value;
    var worse := Worse(sym, root);
    var key := RepKey(root.id, node.room, sym.alarmType);
    var suppress := !worse || (key in reps && reps[key] != sym.id);
    r := Some(Root(root, anc[root.device], suppress, worse && !suppress));
  }
}
