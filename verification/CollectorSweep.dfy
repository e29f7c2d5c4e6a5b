/**
 The sweep that marks the endpoints of collectors that stopped reporting. `Sweep` is the transaction
 as it runs, with the rows it asks the database to lock; the lemmas say that what it asks for is in
 order, that the marking is exact, and that a second sweep finds nothing to do.
 */
module CollectorSweep {
  import opened Wrappers
  import opened LockOrder

  type EndpointId = int
  type DeviceId = int
  type CollectorId = int
  type Time = int

  datatype Status = Online | Degraded | Unknown | Offline | Disabled

  /** What `last_error` says: that the owner stopped reporting, or whatever a collector reported. */
  datatype Reason = Stopped(owner: CollectorId) | Reported(text: string)

  datatype EndpointState = EndpointState(
    status: Status, errorClass: Option<string>, error: Option<Reason>, updatedAt: Time)

  datatype EndpointInfo = EndpointInfo(device: DeviceId, enabled: bool)

  datatype Collector = Collector(id: CollectorId, healthy: bool)

  type States = map<EndpointId, EndpointState>
  type Endpoints = map<EndpointId, EndpointInfo>
  type Ownership = map<EndpointId, CollectorId>

  function StaleClass(): string { "collector_stale" }

  // ------------------------------------------------------------- the WHERE clause

  /** SQL truth: a comparison with NULL is neither true nor false. */
  datatype Truth = Yes | No | Null

  function Equal(a: Option<string>, b: string): Truth {
    if a.None? then Null else if a.value == b then Yes else No
  }

  function And(a: Truth, b: Truth): Truth {
    if a == No || b == No then No else if a == Null || b == Null then Null else Yes
  }

  function Not(a: Truth): Truth {
    match a case Yes => No case No => Yes case Null => Null
  }

  /** The row passes NOT (status = 'UNKNOWN' AND last_error_class = 'collector_stale'). */
  predicate Lockable(s: EndpointState) {
    Not(And(if s.status == Unknown then Yes else No, Equal(s.errorClass, StaleClass()))) == Yes
  }

  /** The row reads as gone with its collector: what `blind_endpoints` selects. */
  predicate Blind(s: EndpointState) {
    s.status == Unknown && s.errorClass == Some(StaleClass())
  }

  /** An unknown row that gives no class: NULL keeps it out of the sweep. */
  predicate Nameless(s: EndpointState) {
    s.status == Unknown && s.errorClass == None
  }

  lemma LockableExactly(s: EndpointState)
    ensures Lockable(s) <==> !Blind(s) && !Nameless(s)
  {
  }

  // -------------------------------------------------------------------- the effect

  function StaleOf(fleet: seq<Collector>): set<CollectorId> {
    set i | 0 <= i < |fleet| && !fleet[i].healthy :: fleet[i].id
  }

  /** The sweep is to mark this endpoint: a stale collector owns it, and its row passes the clause. */
  predicate ToMark(states: States, stale: set<CollectorId>, plan: Ownership, e: EndpointId) {
    e in plan && plan[e] in stale && e in states && Lockable(states[e])
  }

  function MarkedRow(owner: CollectorId, now: Time): EndpointState {
    EndpointState(Unknown, Some(StaleClass()), Some(Stopped(owner)), now)
  }

  function Swept(states: States, stale: set<CollectorId>, plan: Ownership, now: Time): States {
    map e | e in states :: if ToMark(states, stale, plan, e) then MarkedRow(plan[e], now) else states[e]
  }

  /** Some enabled endpoint of the device has a row of this status. */
  predicate Has(states: States, endpoints: Endpoints, d: DeviceId, s: Status) {
    exists e :: e in endpoints && endpoints[e].enabled && endpoints[e].device == d && e in states &&
      states[e].status == s
  }

  /** `apply_device_status`: the best its enabled endpoints say, or nothing when none has a row. */
  function RollUp(states: States, endpoints: Endpoints, d: DeviceId): Option<Status> {
    if Has(states, endpoints, d, Online) then Some(Online)
    else if Has(states, endpoints, d, Degraded) then Some(Degraded)
    else if Has(states, endpoints, d, Unknown) then Some(Unknown)
    else if Has(states, endpoints, d, Offline) then Some(Offline)
    else if Has(states, endpoints, d, Disabled) then Some(Disabled)
    else None
  }

  function MarkedSet(states: States, stale: set<CollectorId>, plan: Ownership): set<EndpointId> {
    set e | e in plan && ToMark(states, stale, plan, e)
  }

  function DevicesOf(endpoints: Endpoints, marked: set<EndpointId>): set<DeviceId> {
    set e | e in marked && e in endpoints :: endpoints[e].device
  }

  /** The rows of the devices in `ds` replaced, or inserted, by the best status where there is one. */
  function Overlay(devices: map<DeviceId, Status>, best: DeviceId -> Option<Status>, ds: set<DeviceId>)
    : map<DeviceId, Status>
  {
    map d | d in devices.Keys + ds && (d in devices || best(d).Some?) ::
      if d in ds && best(d).Some? then best(d).value else devices[d]
  }

  lemma OverlayOneMore(devices: map<DeviceId, Status>, best: DeviceId -> Option<Status>, ds: set<DeviceId>, d: DeviceId)
    ensures Overlay(Overlay(devices, best, ds), best, {d}) == Overlay(devices, best, ds + {d})
  {
  }

  function Best(states: States, endpoints: Endpoints): DeviceId -> Option<Status> {
    d => RollUp(states, endpoints, d)
  }

  // ------------------------------------------------------------ the effect, in plain terms

  /** The fleet lists the collector, and lists it as not healthy. */
  ghost predicate StoppedReporting(fleet: seq<Collector>, o: CollectorId) {
    exists i :: 0 <= i < |fleet| && fleet[i].id == o && !fleet[i].healthy
  }

  /** The row says UNKNOWN already, with the class of the sweep or with none. */
  predicate LeftAlone(s: EndpointState) {
    s.status == Unknown && (s.errorClass == None || s.errorClass == Some("collector_stale"))
  }

  /**
   Each endpoint of a collector that stopped reporting is marked, with its own collector in the message, unless
   it is left alone; and no other row is written. `marked` names exactly those.
   */
  ghost predicate MarksTheDead(
    before: States, after: States, fleet: seq<Collector>, plan: Ownership, now: Time, marked: seq<EndpointId>)
  {
    && after.Keys == before.Keys
    && (forall e :: e in marked ==> e in before && e in plan)
    && forall e :: e in before ==>
         if e in plan && StoppedReporting(fleet, plan[e]) && !LeftAlone(before[e])
         then e in marked && after[e] == EndpointState(Unknown, Some("collector_stale"), Some(Stopped(plan[e])), now)
         else e !in marked && after[e] == before[e]
  }

  /** ONLINE over DEGRADED over UNKNOWN over OFFLINE over DISABLED. */
  predicate Better(s: Status, t: Status) {
    match s
    case Online => !t.Online?
    case Degraded => t.Unknown? || t.Offline? || t.Disabled?
    case Unknown => t.Offline? || t.Disabled?
    case Offline => t.Disabled?
    case Disabled => false
  }

  /** An enabled endpoint of the device has a row that says so. */
  predicate Says(states: States, endpoints: Endpoints, e: EndpointId, d: DeviceId, s: Status) {
    && e in endpoints && endpoints[e].device == d && endpoints[e].enabled
    && e in states && states[e].status == s
  }

  /** Some enabled endpoint of the device says it, and none says anything better. */
  ghost predicate IsBest(states: States, endpoints: Endpoints, d: DeviceId, s: Status) {
    && (exists e :: Says(states, endpoints, e, d, s))
    && forall e, t :: Says(states, endpoints, e, d, t) ==> !Better(t, s)
  }

  predicate IsOn(endpoints: Endpoints, e: EndpointId, d: DeviceId) {
    e in endpoints && endpoints[e].device == d
  }

  ghost predicate HasMarked(endpoints: Endpoints, marked: seq<EndpointId>, d: DeviceId) {
    exists e :: e in marked && IsOn(endpoints, e, d)
  }

  /** A device with a marked endpoint shows the best of its endpoints, if any has a say; any other is as it was. */
  ghost predicate ShowsTheBest(
    before: map<DeviceId, Status>, after: map<DeviceId, Status>, states: States, endpoints: Endpoints,
    marked: seq<EndpointId>, d: DeviceId)
  {
    if exists s :: HasMarked(endpoints, marked, d) && IsBest(states, endpoints, d, s)
    then d in after && IsBest(states, endpoints, d, after[d])
    else (d in after <==> d in before) && (d in before ==> after[d] == before[d])
  }

  lemma StaleAreTheStopped(fleet: seq<Collector>, o: CollectorId)
    ensures o in StaleOf(fleet) <==> StoppedReporting(fleet, o)
  {
  }

  lemma SweptByFleet(before: States, fleet: seq<Collector>, plan: Ownership, now: Time, marked: seq<EndpointId>)
    requires forall e :: e in marked <==> e in MarkedSet(before, StaleOf(fleet), plan)
    ensures MarksTheDead(before, Swept(before, StaleOf(fleet), plan, now), fleet, plan, now, marked)
  {
    hide StaleOf, StoppedReporting, Lockable;
    forall e | e in before
      ensures e in plan && StoppedReporting(fleet, plan[e]) && !LeftAlone(before[e]) <==>
          ToMark(before, StaleOf(fleet), plan, e)
    {
      if e in plan { StaleAreTheStopped(fleet, plan[e]); }
      LockableExactly(before[e]);
    }
  }

  /** `apply_device_status` gives the best status there is, and nothing only where there is none. */
  lemma RollUpIsTheBest(states: States, endpoints: Endpoints, d: DeviceId, s: Status)
    ensures RollUp(states, endpoints, d) == Some(s) <==> IsBest(states, endpoints, d, s)
  {
    forall t ensures Has(states, endpoints, d, t) <==> exists e :: Says(states, endpoints, e, d, t) {
      if Has(states, endpoints, d, t) {
        var e :| e in endpoints && endpoints[e].enabled && endpoints[e].device == d && e in states &&
                 states[e].status == t;
        assert Says(states, endpoints, e, d, t);
      }
    }
    hide Has, Says;
    match s { case Online => case Degraded => case Unknown => case Offline => case Disabled => }
  }

  lemma DevicesByMarked(endpoints: Endpoints, marked: seq<EndpointId>, d: DeviceId)
    ensures d in DevicesOf(endpoints, set e | e in marked) <==> HasMarked(endpoints, marked, d)
  {
    if e :| e in marked && IsOn(endpoints, e, d) { assert e in (set x | x in marked); }
  }

  lemma OverlayByBest(before: map<DeviceId, Status>, states: States, endpoints: Endpoints, marked: seq<EndpointId>,
      d: DeviceId)
    ensures var ds := DevicesOf(endpoints, set e | e in marked);
            ShowsTheBest(before, Overlay(before, Best(states, endpoints), ds), states, endpoints, marked, d)
  {
    hide RollUp, IsBest, DevicesOf, HasMarked;
    DevicesByMarked(endpoints, marked, d);
    forall s ensures RollUp(states, endpoints, d) == Some(s) <==> IsBest(states, endpoints, d, s) {
      RollUpIsTheBest(states, endpoints, d, s);
    }
  }

  // ------------------------------------------------------------------ ordered lists

  ghost predicate Ascending(q: seq<int>) {
    forall i, j :: 0 <= i < j < |q| ==> q[i] < q[j]
  }

  ghost predicate ListsSet(q: seq<int>, s: set<int>) {
    forall x :: x in q <==> x in s
  }

  lemma AscendingGrows(q: seq<int>, x: int)
    requires Ascending(q) && forall y :: y in q ==> y < x
    ensures Ascending(q + [x])
  {
    forall i | 0 <= i < |q| ensures q[i] < x { assert q[i] in q; }
  }

  method Minimum(s: set<int>) returns (least: int)
    requires s != {}
    ensures least in s && forall x :: x in s ==> least <= x
  {
    NonEmpty(s);
    least :| least in s;
    var todo := s - {least};
    while todo != {}
      invariant todo <= s && least in s
      invariant forall x :: x in s && x !in todo ==> least <= x
      decreases todo
    {
      NonEmpty(todo);
      var x :| x in todo;
      if x < least { least := x; }
      todo := todo - {x};
    }
  }

  /** `sorted` over a set of ids. */
  method Sorted(s: set<int>) returns (q: seq<int>)
    ensures Ascending(q) && ListsSet(q, s)
  {
    q := [];
    var todo := s;
    while todo != {}
      invariant todo <= s && Ascending(q)
      invariant forall x :: x in q <==> x in s && x !in todo
      invariant forall x, y :: x in q && y in todo ==> x < y
      decreases todo
    {
      var least := Minimum(todo);
      AscendingGrows(q, least);
      q := q + [least];
      todo := todo - {least};
    }
  }

  ghost predicate NoneTwice(q: seq<EndpointId>) {
    forall i, j :: 0 <= i < j < |q| ==> q[i] != q[j]
  }

  lemma NoneTwiceJoins(q: seq<EndpointId>, r: seq<EndpointId>)
    requires NoneTwice(q) && NoneTwice(r) && forall e :: e in q ==> e !in r
    ensures NoneTwice(q + r)
  {
    var all := q + r;
    forall i, j | 0 <= i < j < |all| ensures all[i] != all[j] {
      if i < |q| <= j { assert all[i] in q && all[j] in r; }
    }
  }

  /** The rows of an UPDATE in whatever order the planner takes them. */
  method AnyOrder(s: set<int>) returns (q: seq<int>)
    ensures ListsSet(q, s) && NoneTwice(q)
  {
    q := [];
    var todo := s;
    while todo != {}
      invariant todo <= s && NoneTwice(q) && forall x :: x in q <==> x in s && x !in todo
      decreases todo
    {
      NonEmpty(todo);
      var x :| x in todo;
      q := q + [x];
      todo := todo - {x};
    }
  }

  function EndpointLocks(q: seq<EndpointId>): seq<Lock> {
    seq(|q|, i requires 0 <= i < |q| => Endpoint(q[i]))
  }

  function DeviceLocks(q: seq<DeviceId>): seq<Lock> {
    seq(|q|, i requires 0 <= i < |q| => Device(q[i]))
  }

  lemma LockAt(q: seq<int>, x: int)
    ensures Endpoint(x) in EndpointLocks(q) <==> x in q
    ensures Device(x) in DeviceLocks(q) <==> x in q
  {
    if x in q {
      var i :| 0 <= i < |q| && q[i] == x;
      assert EndpointLocks(q)[i] == Endpoint(x) && DeviceLocks(q)[i] == Device(x);
    }
  }

  /** New endpoint rows ascending, then only rows already held, then device rows ascending: that is in order. */
  lemma PhasesAreOrdered(first: seq<EndpointId>, again: seq<EndpointId>, last: seq<DeviceId>)
    requires Ascending(first) && Ascending(last)
    requires forall e :: e in again ==> e in first
    ensures Ordered(EndpointLocks(first) + EndpointLocks(again) + DeviceLocks(last))
  {
    var a, b, c := EndpointLocks(first), EndpointLocks(again), DeviceLocks(last);
    var all := a + b + c;
    forall i, j | 0 <= i < j < |all| ensures Below(all[i], all[j]) || all[j] in all[..j] {
      if |a| <= j < |a| + |b| {
        var e := again[j - |a|];
        assert e in again;
        var h :| 0 <= h < |first| && first[h] == e;
        assert all[..j][h] == all[j];
      }
    }
  }

  // --------------------------------------------------------------------- the sweep

  /** Each stale owner with the endpoints it owns among those seen, none twice. */
  ghost predicate Partition(plan: Ownership, stale: set<CollectorId>, seen: set<EndpointId>,
      byOwner: map<CollectorId, seq<EndpointId>>)
  {
    && (forall o :: o in byOwner ==> o in stale && byOwner[o] != [])
    && (forall o, e :: o in byOwner && e in byOwner[o] ==> e in seen && e in plan && plan[e] == o)
    && (forall e :: e in seen && e in plan && plan[e] in stale ==> plan[e] in byOwner && e in byOwner[plan[e]])
    && (forall o, i, j :: o in byOwner && 0 <= i < j < |byOwner[o]| ==> byOwner[o][i] != byOwner[o][j])
  }

  method GroupByOwner(plan: Ownership, stale: set<CollectorId>) returns (byOwner: map<CollectorId, seq<EndpointId>>)
    ensures Partition(plan, stale, plan.Keys, byOwner)
  {
    byOwner := map[];
    var todo := plan.Keys;
    while todo != {}
      invariant todo <= plan.Keys && Partition(plan, stale, plan.Keys - todo, byOwner)
      decreases todo
    {
      NonEmpty(todo);
      var e :| e in todo;
      var owner := plan[e];
      if owner in stale {
        byOwner := byOwner[owner := (if owner in byOwner then byOwner[owner] else []) + [e]];
      }
      todo := todo - {e};
    }
    assert plan.Keys - todo == plan.Keys;
  }

  /** The rows of one owner after another's, owners in order. */
  ghost predicate OwnerByOwner(plan: Ownership, q: seq<EndpointId>) {
    && (forall e :: e in q ==> e in plan)
    && (forall i, j :: 0 <= i < j < |q| && q[i] in plan && q[j] in plan ==> plan[q[i]] <= plan[q[j]])
  }

  lemma OwnedByNobody(plan: Ownership)
    ensures OwnerByOwner(plan, [])
  {
  }

  lemma OwnersJoin(plan: Ownership, q: seq<EndpointId>, mine: seq<EndpointId>, owners: seq<CollectorId>,
      owner: CollectorId)
    requires OwnerByOwner(plan, q) && (forall e :: e in q ==> plan[e] in owners) && forall o :: o in owners ==>
        o < owner
    requires forall e :: e in mine ==> e in plan && plan[e] == owner
    ensures OwnerByOwner(plan, q + mine)
  {
    var all := q + mine;
    forall i, j | 0 <= i < j < |all| && all[i] in plan && all[j] in plan ensures plan[all[i]] <= plan[all[j]] {
      if j < |q| {
        assert plan[q[i]] <= plan[q[j]];
      } else {
        var e := mine[j - |q|];
        assert e in mine && plan[e] == owner;
        if i < |q| {
          var d := q[i];
          assert d in q;
          assert plan[d] in owners;
        } else {
          var d := mine[i - |q|];
          assert d in mine;
        }
      }
    }
  }

  // -------------------------------------------------------------- what a sweep asks for

  /**
   The three phases of a sweep: the rows to mark, ascending; each of them once more, owner by owner
   and in any order within one; and, ascending, the device rows written from the rows as marked.
   */
  ghost predicate InPhases(
    states: States, endpoints: Endpoints, stale: set<CollectorId>, plan: Ownership, now: Time,
    first: seq<EndpointId>, again: seq<EndpointId>, last: seq<DeviceId>)
  {
    var gone := MarkedSet(states, stale, plan);
    && Ascending(first) && ListsSet(first, gone)
    && NoneTwice(again) && ListsSet(again, gone) && OwnerByOwner(plan, again)
    && Ascending(last)
    && forall d :: d in last <==>
        d in DevicesOf(endpoints, gone) && RollUp(Swept(states, stale, plan, now), endpoints, d).Some?
  }

  /** The lock requests of a sweep over these tables, fleet and plan. */
  ghost predicate SweepLocks(
    states: States, endpoints: Endpoints, stale: set<CollectorId>, plan: Ownership, now: Time, asked: seq<Lock>)
  {
    exists first, again, last ::
      InPhases(states, endpoints, stale, plan, now, first, again, last) &&
      asked == EndpointLocks(first) + EndpointLocks(again) + DeviceLocks(last)
  }

  /** It asks in order. */
  lemma SweepsAskInOrder(
    states: States, endpoints: Endpoints, stale: set<CollectorId>, plan: Ownership, now: Time, asked: seq<Lock>)
    requires SweepLocks(states, endpoints, stale, plan, now, asked)
    ensures Ordered(asked)
  {
    var first, again, last :|
      InPhases(states, endpoints, stale, plan, now, first, again, last) &&
      asked == EndpointLocks(first) + EndpointLocks(again) + DeviceLocks(last);
    PhasesAreOrdered(first, again, last);
  }

  /** It asks for exactly the endpoint rows it marks and the device rows it writes. */
  lemma SweepsAskForWhatTheyWrite(
    states: States, endpoints: Endpoints, stale: set<CollectorId>, plan: Ownership, now: Time, asked: seq<Lock>, x: int)
    requires SweepLocks(states, endpoints, stale, plan, now, asked)
    ensures Endpoint(x) in asked <==> x in MarkedSet(states, stale, plan)
    ensures Device(x) in asked <==>
              x in DevicesOf(endpoints, MarkedSet(states, stale, plan)) &&
              RollUp(Swept(states, stale, plan, now), endpoints, x).Some?
  {
    var first, again, last :|
      InPhases(states, endpoints, stale, plan, now, first, again, last) &&
      asked == EndpointLocks(first) + EndpointLocks(again) + DeviceLocks(last);
    LockAt(first, x);
    LockAt(again, x);
    LockAt(last, x);
  }

  /** So every row of either table that the sweep changes is one it has locked. */
  lemma EveryWriteIsLocked(
    states: States, devices: map<DeviceId, Status>, endpoints: Endpoints, stale: set<CollectorId>, plan: Ownership,
    now: Time, asked: seq<Lock>, x: int)
    requires SweepLocks(states, endpoints, stale, plan, now, asked)
    ensures x in states && Swept(states, stale, plan, now)[x] != states[x] ==> Endpoint(x) in asked
    ensures var rows := Overlay(devices, Best(Swept(states, stale, plan, now), endpoints),
        DevicesOf(endpoints, MarkedSet(states, stale, plan)));
            x in rows && (x !in devices || rows[x] != devices[x]) ==> Device(x) in asked
  {
    SweepsAskForWhatTheyWrite(states, endpoints, stale, plan, now, asked, x);
  }

  class Visibility {
    var states: States
    var devices: map<DeviceId, Status>
    const endpoints: Endpoints

    constructor (states: States, devices: map<DeviceId, Status>, endpoints: Endpoints)
      ensures this.states == states && this.devices == devices && this.endpoints == endpoints
    {
      this.states, this.devices, this.endpoints := states, devices, endpoints;
    }

    /** The one ordered SELECT ... FOR UPDATE over every stale collector's endpoints. */
    method LockAll(every: seq<EndpointId>) returns (locked: seq<EndpointId>)
      requires Ascending(every)
      ensures Ascending(locked)
      ensures forall e :: e in locked <==> e in every && e in states && Lockable(states[e])
    {
      locked := [];
      for i := 0 to |every|
        invariant Ascending(locked)
        invariant forall e :: e in locked <==> e in every[..i] && e in states && Lockable(states[e])
      {
        assert every[..i + 1] == every[..i] + [every[i]];
        if every[i] in states && Lockable(states[every[i]]) {
          AscendingGrows(locked, every[i]);
          locked := locked + [every[i]];
        }
      }
      assert every[..|every|] == every;
    }

    /** The UPDATE for one owner: its rows are all held already, and locked again in any order. */
    method MarkOwner(owner: CollectorId, ids: set<EndpointId>, now: Time) returns (again: seq<EndpointId>)
      modifies this`states
      ensures ListsSet(again, ids) && NoneTwice(again)
      ensures states == map e | e in old(states) :: if e in ids then MarkedRow(owner, now) else old(states)[e]
    {
      again := AnyOrder(ids);
      states := map e | e in states ::
        if e in ids then states[e].(status := Unknown, errorClass := Some(StaleClass()),
            error := Some(Stopped(owner)), updatedAt := now)
        else states[e];
    }

    /** The loop over the owners, in order: every locked row once, with its own owner's message. */
    method MarkEach(
      plan: Ownership, stale: set<CollectorId>,
        byOwner: map<CollectorId, seq<EndpointId>>, locked: seq<EndpointId>, now: Time)
      returns (marked: seq<EndpointId>, again: seq<EndpointId>)
      requires Partition(plan, stale, plan.Keys, byOwner) && forall e :: e in locked <==>
          e in plan && ToMark(states, stale, plan, e)
      modifies this`states
      ensures states == Swept(old(states), stale, plan, now)
      ensures NoneTwice(marked) && forall e :: e in marked <==> e in locked
      ensures NoneTwice(again) && OwnerByOwner(plan, again) && forall e :: e in again <==> e in locked
    {
      hide Lockable, OwnerByOwner, MarkedRow;
      OwnedByNobody(plan);
      ghost var before := states;
      var owners := Sorted(byOwner.Keys);
      marked, again := [], [];
      for i := 0 to |owners|
        invariant NoneTwice(marked)
        invariant forall e :: e in marked <==> e in locked && plan[e] in owners[..i]
        invariant NoneTwice(again) && OwnerByOwner(plan, again)
        invariant forall e :: e in again <==> e in locked && plan[e] in owners[..i]
        invariant states == MarkedSoFar(before, locked, plan, owners[..i], now)
      {
        var owner := owners[i];
        assert owners[..i + 1] == owners[..i] + [owner];
        var ids := set e | e in byOwner[owner] && e in locked;
        ghost var was := states;
        if ids != {} {
          var mine := Sorted(ids);
          var order := MarkOwner(owner, ids, now);
          NoneTwiceJoins(marked, mine);
          marked := marked + mine;
          NoneTwiceJoins(again, order);
          OwnersJoin(plan, again, order, owners[..i], owner);
          again := again + order;
        }
        OwnerDone(before, was, states, locked, plan, owners[..i], owner, ids, now);
      }
      assert owners[..|owners|] == owners;
      assert states == Swept(before, stale, plan, now);
    }

    /** `apply_device_status` on one device: its one row, inserted or updated, unless no endpoint has a say. */
    method ApplyDeviceStatus(d: DeviceId) returns (asked: bool)
      modifies this`devices
      ensures devices == Overlay(old(devices), Best(states, endpoints), {d})
      ensures asked == RollUp(states, endpoints, d).Some?
    {
      var best := RollUp(states, endpoints, d);
      asked := best.Some?;
      if best.Some? { devices := devices[d := best.value]; }
    }

    /** One rollup per device that lost an endpoint, in device order: a row is asked for where one is written. */
    method RollUpDevices(ds: seq<DeviceId>) returns (asked: seq<DeviceId>)
      requires Ascending(ds)
      modifies this`devices
      ensures devices == Overlay(old(devices), Best(states, endpoints), set d | d in ds)
      ensures Ascending(asked) && forall d :: d in asked <==> d in ds && RollUp(states, endpoints, d).Some?
    {
      ghost var before, best, done := devices, Best(states, endpoints), {};
      asked := [];
      for i := 0 to |ds|
        invariant done == set d | d in ds[..i]
        invariant devices == Overlay(before, best, done)
        invariant Ascending(asked) && forall d :: d in asked <==> d in ds[..i] && best(d).Some?
      {
        assert ds[..i + 1] == ds[..i] + [ds[i]];
        var one := ApplyDeviceStatus(ds[i]);
        OverlayOneMore(before, best, done, ds[i]);
        done := done + {ds[i]};
        if one {
          AscendingGrows(asked, ds[i]);
          asked := asked + [ds[i]];
        }
      }
      assert ds[..|ds|] == ds;
    }

    /** The closing SELECT: the devices' rows. */
    method Report(ds: seq<DeviceId>) returns (changed: seq<(DeviceId, Status)>)
      ensures forall d, s :: (d, s) in changed <==> d in ds && d in devices && devices[d] == s
    {
      changed := [];
      for i := 0 to |ds|
        invariant forall d, s :: (d, s) in changed <==> d in ds[..i] && d in devices && devices[d] == s
      {
        assert ds[..i + 1] == ds[..i] + [ds[i]];
        if ds[i] in devices { changed := changed + [(ds[i], devices[ds[i]])]; }
      }
      assert ds[..|ds|] == ds;
    }

    /**
     The transaction. `asked` is every row it asks the database to lock, in the order it asks;
     `marked` the endpoints it reports as marked, and `changed` the device rows it returns.
     */
    method Sweep(got: bool, fleet: seq<Collector>, plan: Ownership, now: Time)
      returns (changed: seq<(DeviceId, Status)>, marked: seq<EndpointId>, asked: seq<Lock>)
      modifies this
      ensures !got ==> states == old(states) && devices == old(devices) && changed == [] && marked == [] && asked == []
      ensures got ==> SweepLocks(old(states), endpoints, StaleOf(fleet), plan, now, asked)
      ensures got ==> states == Swept(old(states), StaleOf(fleet), plan, now)
      ensures got ==> NoneTwice(marked) && ListsSet(marked, MarkedSet(old(states), StaleOf(fleet), plan))
      ensures got ==> devices == Overlay(old(devices), Best(states, endpoints),
          DevicesOf(endpoints, set e | e in marked))
      ensures got ==> MarksTheDead(old(states), states, fleet, plan, now, marked)
      ensures got ==> forall d :: ShowsTheBest(old(devices), devices, states, endpoints, marked, d)
      ensures got ==> forall d, s :: (d, s) in changed <==>
                d in DevicesOf(endpoints, set e | e in marked) && d in devices && devices[d] == s
    {
      changed, marked, asked := [], [], [];
      if !got { return; }
      var stale := StaleOf(fleet);
      var byOwner := GroupByOwner(plan, stale);
      var every := Sorted(set o, e | o in byOwner && e in byOwner[o] :: e);
      var locked := LockAll(every);
      ghost var before, was := states, devices;
      assert forall e :: e in locked <==> e in plan && ToMark(states, stale, plan, e);
      var again;
      marked, again := MarkEach(plan, stale, byOwner, locked, now);
      var ds := Sorted(DevicesOf(endpoints, set e | e in marked));
      var rolled := RollUpDevices(ds);
      changed := Report(ds);
      asked := EndpointLocks(locked) + EndpointLocks(again) + DeviceLocks(rolled);
      assert (set d | d in ds) == DevicesOf(endpoints, set e | e in marked);
      assert forall e :: e in marked <==> e in MarkedSet(before, stale, plan);
      assert InPhases(before, endpoints, stale, plan, now, locked, again, rolled);
      SweptByFleet(before, fleet, plan, now, marked);
      forall d ensures ShowsTheBest(was, devices, states, endpoints, marked, d) {
        OverlayByBest(was, states, endpoints, marked, d);
      }
    }
  }

  function MarkedSoFar(before: States, locked: seq<EndpointId>, plan: Ownership, owners: seq<CollectorId>,
      now: Time): States
  {
    map e | e in before :: if e in locked && e in plan && plan[e] in owners then MarkedRow(plan[e], now) else before[e]
  }

  lemma OwnerDone(
    before: States, was: States, states: States, locked: seq<EndpointId>, plan: Ownership, owners: seq<CollectorId>,
    owner: CollectorId, ids: set<EndpointId>, now: Time)
    requires was == MarkedSoFar(before, locked, plan, owners, now)
    requires forall e :: e in ids <==> e in locked && e in plan && plan[e] == owner
    requires states == map e | e in was :: if e in ids then MarkedRow(owner, now) else was[e]
    ensures states == MarkedSoFar(before, locked, plan, owners + [owner], now)
  {
    var after := MarkedSoFar(before, locked, plan, owners + [owner], now);
    forall e | e in before ensures states[e] == after[e] {
      assert e in plan ==> (plan[e] in owners + [owner] <==> plan[e] in owners || plan[e] == owner);
    }
  }

  // ------------------------------------------------------------------- what it is for

  /**
   A row of a stale collector's endpoint reads as gone with its collector after the sweep exactly
   when it was not an unknown row without a class: SQL's NULL keeps that one out.
   */
  lemma MarkingIsExact(states: States, stale: set<CollectorId>, plan: Ownership, now: Time, e: EndpointId)
    requires e in states && e in plan && plan[e] in stale
    ensures Blind(Swept(states, stale, plan, now)[e]) <==> !Nameless(states[e])
    ensures e in MarkedSet(states, stale, plan) <==> !Blind(states[e]) && !Nameless(states[e])
  {
    LockableExactly(states[e]);
  }

  /** Rows of healthy or unowned endpoints, and rows already marked, are exactly as they were. */
  lemma OthersAreUntouched(states: States, stale: set<CollectorId>, plan: Ownership, now: Time, e: EndpointId)
    requires e in states
    requires e !in plan || plan[e] !in stale || Blind(states[e])
    ensures Swept(states, stale, plan, now)[e] == states[e] && e !in MarkedSet(states, stale, plan)
  {
    LockableExactly(states[e]);
  }

  /** A second sweep with the same fleet and plan, at any later time, changes and marks nothing. */
  lemma SecondSweepIsIdle(states: States, stale: set<CollectorId>, plan: Ownership, now: Time, later: Time)
    ensures var once := Swept(states, stale, plan, now);
            Swept(once, stale, plan, later) == once && MarkedSet(once, stale, plan) == {}
  {
    var once := Swept(states, stale, plan, now);
    forall e | e in once ensures !ToMark(once, stale, plan, e) {
      LockableExactly(states[e]);
      LockableExactly(once[e]);
    }
  }

  /** A sweep that marked nothing it could have marked rolled up no device and reports none. */
  lemma NothingMarked(endpoints: Endpoints, marked: seq<EndpointId>, gone: set<EndpointId>,
      devices: map<DeviceId, Status>,
                      best: DeviceId -> Option<Status>)
    requires ListsSet(marked, gone) && gone == {}
    ensures marked == []
    ensures DevicesOf(endpoints, set e | e in marked) == {}
    ensures Overlay(devices, best, DevicesOf(endpoints, set e | e in marked)) == devices
  {
    if |marked| > 0 { SomethingListed(marked, gone); }
  }

  lemma SomethingListed(q: seq<int>, s: set<int>)
    requires ListsSet(q, s) && |q| > 0
    ensures s != {}
  {
    var x := q[0];
    assert x in q;
    assert x in s;
  }

  lemma SomethingReported(changed: seq<(DeviceId, Status)>)
    requires |changed| > 0
    ensures exists d, s :: (d, s) in changed
  {
    var (d, s) := changed[0];
    assert (d, s) in changed;
  }

  /** The sweep straight after another returns no devices, marks nothing, and leaves both tables alone. */
  method SweepAgain(v: Visibility, fleet: seq<Collector>, plan: Ownership, later: Time, ghost before: States,
      ghost first: Time)
    returns (changed: seq<(DeviceId, Status)>, marked: seq<EndpointId>)
    requires v.states == Swept(before, StaleOf(fleet), plan, first)
    modifies v
    ensures changed == [] && marked == []
    ensures v.states == old(v.states) && v.devices == old(v.devices)
  {
    var asked;
    SecondSweepIsIdle(before, StaleOf(fleet), plan, first, later);
    changed, marked, asked := v.Sweep(true, fleet, plan, later);
    NothingMarked(v.endpoints, marked, MarkedSet(old(v.states), StaleOf(fleet), plan), old(v.devices),
      Best(v.states, v.endpoints));
    if |changed| > 0 { SomethingReported(changed); }
  }

  /** A row as the table's own defaults leave it: unknown, with no class. No sweep ever marks it. */
  lemma ARowByDefaultIsNeverMarked(e: EndpointId, owner: CollectorId, now: Time)
    ensures var row := EndpointState(Unknown, None, None, 0);
            Swept(map[e := row], {owner}, map[e := owner], now) == map[e := row] && !Blind(row)
  {
  }

  /** A transaction that is a sweep: on whatever it finds, or one that did not get the advisory lock. */
  ghost predicate IsSweep(program: seq<Lock>) {
    program == [] ||
    exists states, endpoints, stale, plan, now :: SweepLocks(states, endpoints, stale, plan, now, program)
  }

  ghost predicate Climbing(q: seq<int>) {
    forall i, j :: 0 <= i < j < |q| ==> q[i] <= q[j]
  }

  /**
   A transaction that is an ingest batch: endpoint rows in order, then device rows in order, a row perhaps
   more than once.
   */
  ghost predicate IsBatch(program: seq<Lock>) {
    exists es, ds :: Climbing(es) && Climbing(ds) && program == EndpointLocks(es) + DeviceLocks(ds)
  }

  lemma BatchesAskInOrder(es: seq<EndpointId>, ds: seq<DeviceId>)
    requires Climbing(es) && Climbing(ds)
    ensures Ordered(EndpointLocks(es) + DeviceLocks(ds))
  {
    var all := EndpointLocks(es) + DeviceLocks(ds);
    forall i, j | 0 <= i < j < |all| ensures Below(all[i], all[j]) || all[j] in all[..j] {
      if all[i] == all[j] { assert all[..j][i] == all[j]; }
    }
  }

  lemma BothAskInOrder(program: seq<Lock>)
    requires IsSweep(program) || IsBatch(program)
    ensures Ordered(program)
  {
    if IsBatch(program) {
      var es, ds :| Climbing(es) && Climbing(ds) && program == EndpointLocks(es) + DeviceLocks(ds);
      BatchesAskInOrder(es, ds);
    } else if program != [] {
      var states, endpoints, stale, plan, now :| SweepLocks(states, endpoints, stale, plan, now, program);
      SweepsAskInOrder(states, endpoints, stale, plan, now, program);
    }
  }

  /** A run of sweeps and ingest batches, any number of each, none with anything granted yet. */
  ghost predicate SweepsAndBatches(trace: seq<System>) {
    && |trace| > 0
    && (forall i :: i in trace[0] ==>
          (IsSweep(trace[0][i].program) || IsBatch(trace[0][i].program)) && trace[0][i].granted == 0 &&
            !trace[0][i].ended)
    && forall m :: 0 <= m < |trace| - 1 ==> Next(trace[m], trace[m + 1])
  }

  lemma SweepsAndBatchesRun(trace: seq<System>)
    requires SweepsAndBatches(trace)
    ensures Run(trace)
  {
    forall i | i in trace[0] ensures Ordered(trace[0][i].program) { BothAskInOrder(trace[0][i].program); }
  }

  /**
   Any number of sweeps and ingest batches together: no reachable state has a circular wait, and
   while one of them is left, one can be granted its next row or commit.
   */
  lemma SweepsDoNotDeadlock(trace: seq<System>, n: nat)
    requires SweepsAndBatches(trace) && n < |trace|
    ensures forall w :: WaitChain(trace[n], w) ==> w[0] != w[|w| - 1]
    ensures forall i :: i in trace[n] && !trace[n][i].ended ==>
        exists j :: CanBeGranted(trace[n], j) || CanCommit(trace[n], j)
  {
    SweepsAndBatchesRun(trace);
    forall w | WaitChain(trace[n], w) ensures w[0] != w[|w| - 1] { NoCircularWait(trace, n, w); }
    forall i | i in trace[n] && !trace[n][i].ended
      ensures exists j :: CanBeGranted(trace[n], j) || CanCommit(trace[n], j) {
      var j := SomebodyGoesOn(trace, n, i);
    }
  }
}
