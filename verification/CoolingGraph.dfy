/**
 The cooling graph and its memoised `ancestors`.

 `Topology` is the drawn site as a value; `Upstream` says, path by path, which machine
 reaches which device and at what tier; `Ancestry` keeps the highest of those tiers.
 The class `CoolingGraph` computes the same map with the source's nested updates and
 its `_memo` dictionary, in whatever order the neighbour sets are walked.
 */
module CoolingGraphs {
  import opened Wrappers
  import opened CoolingTaxonomy

  type DeviceId = int
  type RoomId = int
  type SiteId = int

  datatype Node = Node(deviceType: DeviceType, room: Option<RoomId>, site: Option<SiteId>)

  /** One row of the device list `build` is given. */
  datatype DeviceRow = DeviceRow(id: DeviceId, node: Node)

  datatype Topology = Topology(
    nodes: map<DeviceId, Node>,
    coolingNbrs: map<DeviceId, set<DeviceId>>,
    coolingUp: map<DeviceId, set<DeviceId>>,
    feeders: map<DeviceId, set<DeviceId>>,
    roomUnits: map<RoomId, seq<DeviceId>>,
    sitePlant: map<SiteId, seq<DeviceId>>)

  function Nbrs(m: map<DeviceId, set<DeviceId>>, d: DeviceId): set<DeviceId> {
    if d in m then m[d] else {}
  }

  /** A list filed under a key, or the empty list: `d.get(key or "", ())`. */
  function Listed(m: map<int, seq<DeviceId>>, key: Option<int>): seq<DeviceId> {
    if key.Some? && key.value in m then m[key.value] else []
  }

  function TierOf(g: Topology, d: DeviceId): Option<Tier> {
    if d in g.nodes then DeviceTier(g.nodes[d].deviceType) else None
  }

  function RoomOf(g: Topology, d: DeviceId): Option<RoomId> {
    if d in g.nodes then g.nodes[d].room else None
  }

  /** The device is an air unit of the room. */
  predicate CoolsRoom(nodes: map<DeviceId, Node>, d: DeviceId, r: RoomId) {
    d in nodes && nodes[d].deviceType.IsAirUnit() && nodes[d].room == Some(r)
  }

  /** The device is plant of the site. */
  predicate PlantOfSite(nodes: map<DeviceId, Node>, d: DeviceId, s: SiteId) {
    d in nodes && DeviceTier(nodes[d].deviceType) == Some(Plant) && nodes[d].site == Some(s)
  }

  /** Every edge and every list names drawn devices, and the lists hold what `build` files in them. */
  ghost predicate WellDrawn(g: Topology) {
    && (forall a, b :: a in Nbrs(g.coolingNbrs, b) ==> a in g.nodes)
    && (forall a, b :: a in Nbrs(g.coolingUp, b) ==> a in g.nodes)
    && (forall a, b :: a in Nbrs(g.feeders, b) ==> a in g.nodes)
    && (forall r, d :: d in Listed(g.roomUnits, Some(r)) ==> CoolsRoom(g.nodes, d, r))
    && (forall s, d :: d in Listed(g.sitePlant, Some(s)) ==> PlantOfSite(g.nodes, d, s))
  }

  // ------------------------------------------------------------ the specification

  predicate Cools(t: Option<Tier>) {
    t == Some(Unit) || t == Some(Plant)
  }

  predicate OnTheFloor(t: Option<Tier>) {
    t == Some(Server) || t == Some(Zone)
  }

  /** The machines drawn as cooling a device, on the cooling layer. */
  function Explicit(g: Topology, d: DeviceId): set<DeviceId> {
    set m | m in Nbrs(g.coolingNbrs, d) && Cools(TierOf(g, m))
  }

  /** The machines that cool a device on the floor: drawn ones, and the room's air units. */
  function Coolers(g: Topology, d: DeviceId): set<DeviceId> {
    var explicit := Explicit(g, d);
    explicit +
    if TierOf(g, d) == Some(Server) || explicit == {}
    then (set u | u in Listed(g.roomUnits, RoomOf(g, d))) else {}
  }

  function SiteOf(g: Topology, d: DeviceId): Option<SiteId> {
    if d in g.nodes then g.nodes[d].site else None
  }

  function SitePlant(g: Topology, d: DeviceId): set<(DeviceId, Tier)> {
    set p | p in Listed(g.sitePlant, SiteOf(g, d)) :: (p, Plant)
  }

  function Feeders(g: Topology, d: DeviceId): set<(DeviceId, Tier)> {
    set f | f in Nbrs(g.feeders, d) :: (f, Power)
  }

  /** What one cooler brings with it: itself, the plant over a unit, the feeders over both. */
  function Over(g: Topology, u: DeviceId): set<(DeviceId, Tier)> {
    if TierOf(g, u) == Some(Plant) then {(u, Plant)} + Feeders(g, u)
    else {(u, Unit)} + SitePlant(g, u) + Feeders(g, u)
  }

  /** Everything a set of coolers brings. */
  function AllOver(g: Topology, us: set<DeviceId>): set<(DeviceId, Tier)> {
    set u, p | u in us && p in Over(g, u) :: p
  }

  lemma AllOverOneMore(g: Topology, us: set<DeviceId>, u: DeviceId)
    ensures AllOver(g, us + {u}) == AllOver(g, us) + Over(g, u)
  {
  }

  function PlantAhead(g: Topology, d: DeviceId): set<DeviceId> {
    set m | m in Nbrs(g.coolingUp, d) && TierOf(g, m) == Some(Plant)
  }

  /** Every path upwards from a device: where it arrives and the tier it acts at. */
  function Upstream(g: Topology, d: DeviceId): set<(DeviceId, Tier)> {
    match TierOf(g, d)
    case Some(Unit) => SitePlant(g, d) + Feeders(g, d)
    case Some(Plant) => Feeders(g, d) + AllOver(g, PlantAhead(g, d))
    case Some(Server) => FloorUpstream(g, d)
    case Some(Zone) => FloorUpstream(g, d)
    case _ => {}
  }

  function FloorUpstream(g: Topology, d: DeviceId): set<(DeviceId, Tier)> {
    if Coolers(g, d) == {} then SitePlant(g, d) else AllOver(g, Coolers(g, d))
  }

  /** `out` holds, for each device the arrivals name except `self`, the highest tier they give it. */
  ghost predicate Highest(out: map<DeviceId, Tier>, self: DeviceId, arrivals: set<(DeviceId, Tier)>) {
    && (forall x :: x in out ==> x != self && (x, out[x]) in arrivals)
    && (forall p :: p in arrivals && p.0 != self ==> p.0 in out && Rank(p.1) <= Rank(out[p.0]))
  }

  function Top(x: DeviceId, arrivals: set<(DeviceId, Tier)>): Tier {
    if (x, Power) in arrivals then Power
    else if (x, Plant) in arrivals then Plant
    else if (x, Unit) in arrivals then Unit
    else if (x, Zone) in arrivals then Zone
    else Server
  }

  function TopMap(self: DeviceId, arrivals: set<(DeviceId, Tier)>): (out: map<DeviceId, Tier>)
    ensures Highest(out, self, arrivals)
  {
    var names := set p | p in arrivals && p.0 != self :: p.0;
    TopIsHighest(arrivals);
    map x | x in names :: Top(x, arrivals)
  }

  lemma TopIsHighest(arrivals: set<(DeviceId, Tier)>)
    ensures forall p :: p in arrivals ==> (p.0, Top(p.0, arrivals)) in arrivals && Rank(p.1) <= Rank(Top(p.0, arrivals))
  {
    forall p | p in arrivals
      ensures (p.0, Top(p.0, arrivals)) in arrivals && Rank(p.1) <= Rank(Top(p.0, arrivals))
    {
      assert p == (p.0, p.1);
      match p.1 { case Server => case Zone => case Unit => case Plant => case Power => }
    }
  }

  /** The specification of `ancestors`: each machine upstream, at the highest tier any path gives it. */
  function Ancestry(g: Topology, d: DeviceId): (out: map<DeviceId, Tier>)
    ensures Highest(out, d, Upstream(g, d))
  {
    TopMap(d, Upstream(g, d))
  }

  /** Only one map is highest for given arrivals, so the order they are met in cannot matter. */
  lemma HighestIsUnique(a: map<DeviceId, Tier>, b: map<DeviceId, Tier>, self: DeviceId, arrivals: set<(DeviceId, Tier)>)
    requires Highest(a, self, arrivals) && Highest(b, self, arrivals)
    ensures a == b
  {
    forall x
      ensures x in a <==> x in b
      ensures x in a && x in b ==> a[x] == b[x]
    {
      if x in a { assert (x, a[x]) in arrivals; }
      if x in b { assert (x, b[x]) in arrivals; }
    }
  }

  lemma NothingIsHighest(self: DeviceId)
    ensures Highest(map[], self, {})
  {
  }

  // ------------------------------------------------- what the chain's shape gives

  /** An arrival at the unit or plant tier is at a machine of that tier; the rest are feeders. */
  ghost predicate AtItsTier(g: Topology, p: (DeviceId, Tier)) {
    p.1 == Power || ((p.1 == Unit || p.1 == Plant) && TierOf(g, p.0) == Some(p.1))
  }

  lemma SitePlantShape(g: Topology, d: DeviceId, p: (DeviceId, Tier))
    requires WellDrawn(g) && p in SitePlant(g, d)
    ensures p.1 == Plant && AtItsTier(g, p)
  {
    var s := SiteOf(g, d).value;
    assert p.0 in Listed(g.sitePlant, Some(s));
    assert PlantOfSite(g.nodes, p.0, s);
  }

  lemma CoolerShape(g: Topology, d: DeviceId, u: DeviceId)
    requires WellDrawn(g) && u in Coolers(g, d)
    ensures u in g.nodes && Cools(TierOf(g, u))
    ensures u in Nbrs(g.coolingNbrs, d) || g.nodes[u].deviceType.IsAirUnit()
  {
    if u !in Explicit(g, d) {
      var r := RoomOf(g, d).value;
      assert u in Listed(g.roomUnits, Some(r));
      assert CoolsRoom(g.nodes, u, r);
    }
  }

  lemma OverShape(g: Topology, u: DeviceId, p: (DeviceId, Tier))
    requires WellDrawn(g) && p in Over(g, u) && Cools(TierOf(g, u))
    ensures AtItsTier(g, p) && (p.1 == Unit ==> p.0 == u)
  {
    if p in SitePlant(g, u) { SitePlantShape(g, u, p); }
  }

  /** The shape of one arrival, branch by branch. */
  lemma ArrivalShape(g: Topology, d: DeviceId, p: (DeviceId, Tier))
    requires WellDrawn(g) && p in Upstream(g, d)
    ensures AtItsTier(g, p) && TierOf(g, d).Some?
    ensures p.1 == Unit ==> OnTheFloor(TierOf(g, d)) && p.0 in Coolers(g, d)
    ensures TierOf(g, d) == Some(Plant) && p.1 == Plant ==> p.0 in PlantAhead(g, d)
  {
    if p in SitePlant(g, d) { SitePlantShape(g, d, p); }
    if OnTheFloor(TierOf(g, d)) && Coolers(g, d) != {} {
      var u :| u in Coolers(g, d) && p in Over(g, u);
      CoolerShape(g, d, u);
      OverShape(g, u, p);
    }
  }

  /** A machine acting as a unit or as plant is one. */
  lemma ActsAsItIs(g: Topology, d: DeviceId, x: DeviceId)
    requires WellDrawn(g) && x in Ancestry(g, d)
    ensures Ancestry(g, d)[x] != Power ==>
              Cools(Some(Ancestry(g, d)[x])) && TierOf(g, x) == Some(Ancestry(g, d)[x])
  {
    ArrivalShape(g, d, (x, Ancestry(g, d)[x]));
  }

  /** A device is never its own ancestor, and every ancestor stands above it, or is drawn ahead of it in the plant. */
  lemma AncestorsStandAbove(g: Topology, d: DeviceId, x: DeviceId)
    requires WellDrawn(g) && x in Ancestry(g, d)
    ensures x != d && TierOf(g, d).Some?
    ensures var own, at := TierOf(g, d).value, Ancestry(g, d)[x];
            Rank(own) < Rank(at) || (own == at == Plant && x in PlantAhead(g, d))
  {
    ArrivalShape(g, d, (x, Ancestry(g, d)[x]));
  }

  /** A CDU cools a device only where the cooling layer draws it. */
  lemma CduOnlyWhereDrawn(g: Topology, d: DeviceId, x: DeviceId)
    requires WellDrawn(g) && x in Ancestry(g, d)
    requires x in g.nodes && g.nodes[x].deviceType == Cdu
    ensures Ancestry(g, d)[x] == Power || x in Nbrs(g.coolingNbrs, d)
  {
    ArrivalShape(g, d, (x, Ancestry(g, d)[x]));
    if Ancestry(g, d)[x] == Unit { CoolerShape(g, d, x); }
  }

  // ------------------------------------------------------------------- the class

  /** `add`: keep the higher of the recorded tier and the new one, and never the device itself. */
  function Add(out: map<DeviceId, Tier>, self: DeviceId, dev: DeviceId, at: Tier): map<DeviceId, Tier> {
    if dev != self && Rank(at) > Rank(if dev in out then out[dev] else Server) then out[dev := at] else out
  }

  lemma AddKeepsHighest(
    out: map<DeviceId, Tier>, self: DeviceId, arrivals: set<(DeviceId, Tier)>, dev: DeviceId, at: Tier)
    requires Highest(out, self, arrivals)
    requires at != Server
    ensures Highest(Add(out, self, dev, at), self, arrivals + {(dev, at)})
  {
  }

  function SetDefaultAdd(m: map<DeviceId, set<DeviceId>>, key: DeviceId, item: DeviceId): map<DeviceId, set<DeviceId>> {
    m[key := Nbrs(m, key) + {item}]
  }

  function SetDefaultAppend(m: map<int, seq<DeviceId>>, key: int, item: DeviceId): map<int, seq<DeviceId>> {
    m[key := Listed(m, Some(key)) + [item]]
  }

  /** An edge of a drawn list whose two ends are known devices. */
  predicate Known(nodes: map<DeviceId, Node>, edges: seq<(DeviceId, DeviceId)>, a: DeviceId, b: DeviceId) {
    a in nodes && b in nodes && (a, b) in edges
  }

  predicate EitherWay(nodes: map<DeviceId, Node>, edges: seq<(DeviceId, DeviceId)>, a: DeviceId, b: DeviceId) {
    Known(nodes, edges, a, b) || Known(nodes, edges, b, a)
  }

  /** A table that files the upstream end of every known edge under its downstream end. */
  ghost predicate FilesEdges(m: map<DeviceId, set<DeviceId>>, nodes: map<DeviceId, Node>,
      edges: seq<(DeviceId, DeviceId)>)
  {
    forall a, b :: a in Nbrs(m, b) <==> Known(nodes, edges, a, b)
  }

  /** A table that files the two ends of every known edge under each other. */
  ghost predicate FilesBothWays(m: map<DeviceId, set<DeviceId>>, nodes: map<DeviceId, Node>,
      edges: seq<(DeviceId, DeviceId)>)
  {
    forall a, b :: a in Nbrs(m, b) <==> EitherWay(nodes, edges, a, b)
  }

  function FileEdge(m: map<DeviceId, set<DeviceId>>, nodes: map<DeviceId, Node>, a: DeviceId,
      b: DeviceId): map<DeviceId, set<DeviceId>>
  {
    if a in nodes && b in nodes then SetDefaultAdd(m, b, a) else m
  }

  lemma FiledEdge(m: map<DeviceId, set<DeviceId>>, nodes: map<DeviceId, Node>, edges: seq<(DeviceId, DeviceId)>, k: nat)
    requires k < |edges| && FilesEdges(m, nodes, edges[..k])
    ensures FilesEdges(FileEdge(m, nodes, edges[k].0, edges[k].1), nodes, edges[..k + 1])
  {
    assert edges[..k + 1] == edges[..k] + [edges[k]];
    forall a, b
      ensures a in Nbrs(FileEdge(m, nodes, edges[k].0, edges[k].1), b) <==> Known(nodes, edges[..k + 1], a, b)
    {
      assert a in Nbrs(m, b) <==> Known(nodes, edges[..k], a, b);
    }
  }

  lemma FiledBothWays(m: map<DeviceId, set<DeviceId>>, nodes: map<DeviceId, Node>, edges: seq<(DeviceId, DeviceId)>,
      k: nat)
    requires k < |edges| && FilesBothWays(m, nodes, edges[..k])
    ensures FilesBothWays(FileEdge(FileEdge(m, nodes, edges[k].1, edges[k].0), nodes, edges[k].0, edges[k].1), nodes,
        edges[..k + 1])
  {
    assert edges[..k + 1] == edges[..k] + [edges[k]];
    var m1 := FileEdge(m, nodes, edges[k].1, edges[k].0);
    forall a, b
      ensures a in Nbrs(FileEdge(m1, nodes, edges[k].0, edges[k].1), b) <==> EitherWay(nodes, edges[..k + 1], a, b)
    {
      assert a in Nbrs(m, b) <==> EitherWay(nodes, edges[..k], a, b);
    }
  }

  /** The dictionary a device list makes: a repeated id takes its last row. */
  function DictOf(devices: seq<DeviceRow>): map<DeviceId, Node> {
    if devices == [] then map[]
    else var last := devices[|devices| - 1]; DictOf(devices[..|devices| - 1])[last.id := last.node]
  }

  /** A known device is as its last row in the list says; one without a row is not known. */
  lemma {:induction false} DictHoldsTheLast(devices: seq<DeviceRow>, d: DeviceId, i: nat)
    requires i <= |devices| && forall j :: i < j < |devices| ==> devices[j].id != d
    requires i == |devices| || devices[i].id == d
    ensures i < |devices| ==> d in DictOf(devices) && DictOf(devices)[d] == devices[i].node
    ensures (forall j :: 0 <= j < |devices| ==> devices[j].id != d) ==> d !in DictOf(devices)
  {
    if devices != [] {
      var last := |devices| - 1;
      DictHoldsTheLast(devices[..last], d, if i <= last then i else last);
    }
  }

  /** The table lists exactly the air units of each room, among the devices not left in `todo`. */
  ghost predicate FilesRooms(m: map<RoomId, seq<DeviceId>>, nodes: map<DeviceId, Node>, todo: set<DeviceId>) {
    forall r, d :: d in Listed(m, Some(r)) <==> d !in todo && CoolsRoom(nodes, d, r)
  }

  ghost predicate FilesSites(m: map<SiteId, seq<DeviceId>>, nodes: map<DeviceId, Node>, todo: set<DeviceId>) {
    forall s, d :: d in Listed(m, Some(s)) <==> d !in todo && PlantOfSite(nodes, d, s)
  }

  lemma FiledIsWellDrawn(g: Topology, cooling: seq<(DeviceId, DeviceId)>, power: seq<(DeviceId, DeviceId)>)
    requires FilesEdges(g.coolingUp, g.nodes, cooling) && FilesBothWays(g.coolingNbrs, g.nodes, cooling)
    requires FilesEdges(g.feeders, g.nodes, power)
    requires FilesRooms(g.roomUnits, g.nodes, {}) && FilesSites(g.sitePlant, g.nodes, {})
    ensures WellDrawn(g)
  {
  }

  class CoolingGraph {
    var nodes: map<DeviceId, Node>
    var coolingNbrs: map<DeviceId, set<DeviceId>>
    var coolingUp: map<DeviceId, set<DeviceId>>
    var feeders: map<DeviceId, set<DeviceId>>
    var roomUnits: map<RoomId, seq<DeviceId>>
    var sitePlant: map<SiteId, seq<DeviceId>>
    var memo: map<DeviceId, map<DeviceId, Tier>>

    ghost function Drawn(): Topology
      reads this
    {
      Topology(nodes, coolingNbrs, coolingUp, feeders, roomUnits, sitePlant)
    }

    /** The edges are drawn over known devices, and every memo entry is what `ancestors` would compute. */
    ghost predicate Valid()
      reads this
    {
      WellDrawn(Drawn()) && forall d :: d in memo ==> memo[d] == Ancestry(Drawn(), d)
    }

    /** `build`: the device list and the two edge lists become the lookup tables, edges to unknown devices dropped. */
    constructor Build(devices: seq<DeviceRow>, cooling: seq<(DeviceId, DeviceId)>, power: seq<(DeviceId, DeviceId)>)
      ensures Valid() && memo == map[]
      ensures nodes == DictOf(devices)
      ensures FilesEdges(coolingUp, nodes, cooling)
      ensures FilesBothWays(coolingNbrs, nodes, cooling)
      ensures FilesEdges(feeders, nodes, power)
      ensures FilesRooms(roomUnits, nodes, {}) && FilesSites(sitePlant, nodes, {})
    {
      nodes, coolingNbrs, coolingUp, feeders := map[], map[], map[], map[];
      roomUnits, sitePlant, memo := map[], map[], map[];
      new;
      hide WellDrawn, FilesEdges, FilesBothWays, FilesRooms, FilesSites, DictOf;
      FileDevices(devices);
      FileCooling(cooling);
      FilePower(power);
      FileRoomsAndSites();
      FiledIsWellDrawn(Drawn(), cooling, power);
    }

    method FileDevices(devices: seq<DeviceRow>)
      requires nodes == map[]
      modifies this`nodes
      ensures nodes == DictOf(devices)
    {
      for k := 0 to |devices|
        invariant nodes == DictOf(devices[..k])
      {
        assert devices[..k + 1][..k] == devices[..k];
        nodes := nodes[devices[k].id := devices[k].node];
      }
      assert devices[..|devices|] == devices;
    }

    method FileCooling(cooling: seq<(DeviceId, DeviceId)>)
      requires coolingNbrs == coolingUp == map[]
      modifies this`coolingNbrs, this`coolingUp
      ensures FilesEdges(coolingUp, nodes, cooling)
      ensures FilesBothWays(coolingNbrs, nodes, cooling)
    {
      for k := 0 to |cooling|
        invariant FilesEdges(coolingUp, nodes, cooling[..k]) && FilesBothWays(coolingNbrs, nodes, cooling[..k])
      {
        var (a, b) := cooling[k];
        FiledEdge(coolingUp, nodes, cooling, k);
        FiledBothWays(coolingNbrs, nodes, cooling, k);
        if a in nodes && b in nodes {
          coolingNbrs := SetDefaultAdd(coolingNbrs, a, b);
          coolingNbrs := SetDefaultAdd(coolingNbrs, b, a);
          coolingUp := SetDefaultAdd(coolingUp, b, a);
        }
      }
      assert cooling[..|cooling|] == cooling;
    }

    method FilePower(power: seq<(DeviceId, DeviceId)>)
      requires feeders == map[]
      modifies this`feeders
      ensures FilesEdges(feeders, nodes, power)
    {
      for k := 0 to |power|
        invariant FilesEdges(feeders, nodes, power[..k])
      {
        var (a, b) := power[k];
        FiledEdge(feeders, nodes, power, k);
        if a in nodes && b in nodes {
          feeders := SetDefaultAdd(feeders, b, a);
        }
      }
      assert power[..|power|] == power;
    }

    /** The loop over the nodes: the air units of each room, and the plant of each site. */
    method FileRoomsAndSites()
      requires roomUnits == map[] && sitePlant == map[]
      modifies this`roomUnits, this`sitePlant
      ensures FilesRooms(roomUnits, nodes, {}) && FilesSites(sitePlant, nodes, {})
    {
      var todo := nodes.Keys;
      while todo != {}
        invariant todo <= nodes.Keys
        invariant FilesRooms(roomUnits, nodes, todo) && FilesSites(sitePlant, nodes, todo)
        decreases todo
      {
        NonEmpty(todo);
        var d :| d in todo;
        var n := nodes[d];
        if n.deviceType.IsAirUnit() && n.room.Some? {
          roomUnits := SetDefaultAppend(roomUnits, n.room.value, d);
        }
        if DeviceTier(n.deviceType) == Some(Plant) && n.site.Some? {
          sitePlant := SetDefaultAppend(sitePlant, n.site.value, d);
        }
        todo := todo - {d};
      }
    }

    /** `unit_up` without the unit itself: the site's plant, then the unit's feeders. */
    method UnitUp(out: map<DeviceId, Tier>, self: DeviceId, u: DeviceId, ghost before: set<(DeviceId, Tier)>)
      returns (r: map<DeviceId, Tier>)
      requires Valid() && u in nodes && Highest(out, self, before)
      ensures Highest(r, self, before + SitePlant(Drawn(), u) + Feeders(Drawn(), u))
    {
      r := AddAll(out, self, Listed(sitePlant, nodes[u].site), before);
      r := PlantUp(r, self, u, before + SitePlant(Drawn(), u));
    }

    method AddAll(out: map<DeviceId, Tier>, self: DeviceId, plant: seq<DeviceId>, ghost before: set<(DeviceId, Tier)>)
      returns (r: map<DeviceId, Tier>)
      requires Highest(out, self, before)
      ensures Highest(r, self, before + (set p | p in plant :: (p, Plant)))
    {
      hide Highest, Add;
      r := out;
      ghost var done := before;
      for i := 0 to |plant|
        invariant done == before + set p | p in plant[..i] :: (p, Plant)
        invariant Highest(r, self, done)
      {
        AddKeepsHighest(r, self, done, plant[i], Plant);
        r := Add(r, self, plant[i], Plant);
        done := done + {(plant[i], Plant)};
        assert plant[..i + 1] == plant[..i] + [plant[i]];
      }
      assert plant[..|plant|] == plant;
      assert done == before + set p | p in plant :: (p, Plant);
    }

    /** `plant_up`: the machine's electrical feeders. */
    method PlantUp(out: map<DeviceId, Tier>, self: DeviceId, m: DeviceId, ghost before: set<(DeviceId, Tier)>)
      returns (r: map<DeviceId, Tier>)
      requires Highest(out, self, before)
      ensures Highest(r, self, before + Feeders(Drawn(), m))
    {
      r := out;
      var todo := Nbrs(feeders, m);
      ghost var done := before;
      while todo != {}
        invariant todo <= Nbrs(feeders, m)
        invariant done == before + set f | f in Nbrs(feeders, m) - todo :: (f, Power)
        invariant Highest(r, self, done)
        decreases todo
      {
        NonEmpty(todo);
        var f :| f in todo;
        AddKeepsHighest(r, self, done, f, Power);
        r := Add(r, self, f, Power);
        done := done + {(f, Power)};
        todo := todo - {f};
      }
      assert done == before + Feeders(Drawn(), m);
    }

    /** One cooler of the loop over `units`: itself, and what stands over it. */
    method CoolerUp(out: map<DeviceId, Tier>, self: DeviceId, u: DeviceId, ghost before: set<(DeviceId, Tier)>)
      returns (r: map<DeviceId, Tier>)
      requires Valid() && u in nodes && Highest(out, self, before)
      ensures Highest(r, self, before + Over(Drawn(), u))
    {
      if DeviceTier(nodes[u].deviceType) == Some(Plant) {
        AddKeepsHighest(out, self, before, u, Plant);
        r := PlantUp(Add(out, self, u, Plant), self, u, before + {(u, Plant)});
        assert before + {(u, Plant)} + Feeders(Drawn(), u) == before + Over(Drawn(), u);
      } else {
        AddKeepsHighest(out, self, before, u, Unit);
        r := UnitUp(Add(out, self, u, Unit), self, u, before + {(u, Unit)});
        assert before + {(u, Unit)} + SitePlant(Drawn(), u) + Feeders(Drawn(), u) == before + Over(Drawn(), u);
      }
    }

    /** The loop itself: the coolers in any order. */
    method CoolersUp(out: map<DeviceId, Tier>, self: DeviceId, units: set<DeviceId>,
        ghost before: set<(DeviceId, Tier)>)
      returns (r: map<DeviceId, Tier>)
      requires Valid() && units <= nodes.Keys && Highest(out, self, before)
      ensures Highest(r, self, before + AllOver(Drawn(), units))
    {
      r := out;
      var todo := units;
      ghost var done: set<DeviceId> := {};
      assert before + AllOver(Drawn(), done) == before;
      while todo != {}
        invariant todo <= units && done == units - todo
        invariant Highest(r, self, before + AllOver(Drawn(), done))
        decreases todo
      {
        NonEmpty(todo);
        var u :| u in todo;
        r := CoolerUp(r, self, u, before + AllOver(Drawn(), done));
        AllOverOneMore(Drawn(), done, u);
        assert before + AllOver(Drawn(), done) + Over(Drawn(), u) == before + AllOver(Drawn(), done + {u});
        todo, done := todo - {u}, done + {u};
      }
      assert done == units;
    }

    /** The `server`/`zone` branch: every cooler with what stands over it, or the site's plant when there is none. */
    method FloorUp(self: DeviceId) returns (r: map<DeviceId, Tier>)
      requires Valid() && self in nodes
      ensures Highest(r, self, FloorUpstream(Drawn(), self))
    {
      hide WellDrawn, Highest, Ancestry, AllOver;
      NothingIsHighest(self);
      ghost var g := Drawn();
      var explicit := set m | m in Nbrs(coolingNbrs, self) && m in nodes && Cools(DeviceTier(nodes[m].deviceType));
      assert explicit == Explicit(g, self);
      var units := explicit;
      if DeviceTier(nodes[self].deviceType) == Some(Server) || explicit == {} {
        units := units + set u | u in Listed(roomUnits, nodes[self].room);
      }
      assert units == Coolers(g, self);
      if units == {} {
        r := AddAll(map[], self, Listed(sitePlant, nodes[self].site), {});
        assert {} + SitePlant(g, self) == SitePlant(g, self);
      } else {
        forall u | u in units ensures u in nodes { CoolerShape(g, self, u); }
        r := CoolersUp(map[], self, units, {});
        assert {} + AllOver(g, units) == FloorUpstream(g, self);
      }
    }

    /** The `plant` branch: the feeders, and the machines drawn directly ahead with their own feeders. */
    method PlantBranch(self: DeviceId) returns (r: map<DeviceId, Tier>)
      requires Valid() && TierOf(Drawn(), self) == Some(Plant)
      ensures Highest(r, self, Upstream(Drawn(), self))
    {
      ghost var g := Drawn();
      r := PlantUp(map[], self, self, {});
      var ahead := set m | m in Nbrs(coolingUp, self) && m in nodes && DeviceTier(nodes[m].deviceType) == Some(Plant);
      assert ahead == PlantAhead(g, self);
      r := CoolersUp(r, self, ahead, {} + Feeders(g, self));
      assert {} + Feeders(g, self) + AllOver(g, ahead) == Upstream(g, self);
    }

    /**
     `ancestors`: the answer is the specification whatever was asked before and in whatever
     order the neighbour sets are walked, and only the memo grows.
     */
    method Ancestors(d: DeviceId) returns (out: map<DeviceId, Tier>)
      requires Valid()
      modifies this`memo
      ensures Valid() && Drawn() == old(Drawn())
      ensures out == Ancestry(Drawn(), d)
      ensures memo == old(memo)[d := out]
    {
      if d in memo {
        out := memo[d];
        assert memo == memo[d := out];
        return;
      }
      ghost var g := Drawn();
      var tier := if d in nodes then DeviceTier(nodes[d].deviceType) else None;
      match tier {
        case None => out := map[];
        case Some(Unit) => out := UnitUp(map[], d, d, {});
          assert {} + SitePlant(g, d) + Feeders(g, d) == Upstream(g, d);
        case Some(Plant) => out := PlantBranch(d);
        case Some(_) => out := FloorUp(d);
      }
      HighestIsUnique(out, Ancestry(g, d), d, Upstream(g, d));
      memo := memo[d := out];
    }
  }
}
