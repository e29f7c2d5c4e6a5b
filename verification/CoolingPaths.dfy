/**
 The ancestors of a device, said of the drawing alone.

 `Reaches` is a path of one or two hops over the device rows and the two edge lists, with none of the
 lookup tables and none of the walks of `CoolingGraph`. `AncestorsAreThePaths` says that `ancestors`
 gives exactly the ends of the paths, each at the highest tier a path reaches it at.
 */
module CoolingPaths {
  import opened Wrappers
  import opened CoolingTaxonomy
  import opened CoolingGraphs

  type Nodes = map<DeviceId, Node>
  type Edges = seq<(DeviceId, DeviceId)>

  /** The tables are those `build` makes of the two edge lists. */
  ghost predicate BuiltFrom(g: Topology, cooling: Edges, power: Edges) {
    && FilesEdges(g.coolingUp, g.nodes, cooling)
    && FilesBothWays(g.coolingNbrs, g.nodes, cooling)
    && FilesEdges(g.feeders, g.nodes, power)
    && FilesRooms(g.roomUnits, g.nodes, {})
    && FilesSites(g.sitePlant, g.nodes, {})
  }

  // ------------------------------------------------------------------ the drawing

  /** The device types of each tier; power is where a machine acts, not what it is. */
  predicate OfTier(k: DeviceType, t: Tier) {
    match t
    case Plant => k.Chiller? || k.CoolingTower? || k.Pump? || k.Valve?
    case Unit => k.Crah? || k.Crac? || k.Cdu? || k.InRowCooler? || k.Rdhx?
    case Zone => k.Sensor? || k.Pdu?
    case Server => k.ServerBox? || k.Switch? || k.OobSwitch? || k.Firewall? || k.Router? || k.LoadBalancer? ||
      k.Storage?
    case Power => false
  }

  predicate Stands(nodes: Nodes, d: DeviceId, t: Tier) {
    d in nodes && OfTier(nodes[d].deviceType, t)
  }

  /** An edge between two known devices, from the first to the second. */
  predicate Drawn(nodes: Nodes, edges: Edges, a: DeviceId, b: DeviceId) {
    a in nodes && b in nodes && (a, b) in edges
  }

  /** A unit or plant machine that the cooling layer draws next to the device, whichever way. */
  predicate DrawnCooler(nodes: Nodes, cooling: Edges, u: DeviceId, d: DeviceId) {
    (Stands(nodes, u, Unit) || Stands(nodes, u, Plant)) &&
    (Drawn(nodes, cooling, u, d) || Drawn(nodes, cooling, d, u))
  }

  /** An air unit in the device's room. */
  predicate RoomCooler(nodes: Nodes, u: DeviceId, d: DeviceId) {
    && u in nodes && d in nodes
    && nodes[u].room.Some? && nodes[u].room == nodes[d].room
    && var k := nodes[u].deviceType; (k.Crah? || k.Crac? || k.InRowCooler? || k.Rdhx?)
  }

  predicate Floor(nodes: Nodes, d: DeviceId) {
    Stands(nodes, d, Server) || Stands(nodes, d, Zone)
  }

  /**
   What cools a device on the floor: the drawn machines; the air of its room too, unless it is a probe
   with a machine of its own.
   */
  ghost predicate CooledBy(nodes: Nodes, cooling: Edges, u: DeviceId, d: DeviceId) {
    DrawnCooler(nodes, cooling, u, d) ||
    (RoomCooler(nodes, u, d) && (Stands(nodes, d, Server) || forall m :: !DrawnCooler(nodes, cooling, m, d)))
  }

  predicate PlantOfItsSite(nodes: Nodes, x: DeviceId, d: DeviceId) {
    Stands(nodes, x, Plant) && d in nodes && nodes[d].site.Some? && nodes[x].site == nodes[d].site
  }

  /** A machine whose own feeders and plant stand over the device: a cooler of it, or plant drawn ahead of plant. */
  ghost predicate Carries(nodes: Nodes, cooling: Edges, u: DeviceId, d: DeviceId) {
    (Floor(nodes, d) && CooledBy(nodes, cooling, u, d)) ||
    (Stands(nodes, d, Plant) && Stands(nodes, u, Plant) && Drawn(nodes, cooling, u, d))
  }

  /** The feeders of a machine, and the site's plant over a unit. */
  predicate OverMachine(nodes: Nodes, power: Edges, x: DeviceId, t: Tier, u: DeviceId) {
    (t == Power && Drawn(nodes, power, x, u)) || (t == Plant && Stands(nodes, u, Unit) && PlantOfItsSite(nodes, x, u))
  }

  ghost predicate Uncooled(nodes: Nodes, cooling: Edges, d: DeviceId) {
    Floor(nodes, d) && forall u :: !CooledBy(nodes, cooling, u, d)
  }

  /** A path upwards from `d` ends at `x`, acting at tier `t`. */
  ghost predicate Reaches(nodes: Nodes, cooling: Edges, power: Edges, x: DeviceId, t: Tier, d: DeviceId) {
    || (Carries(nodes, cooling, x, d) && Stands(nodes, x, t))
    || (exists u :: Carries(nodes, cooling, u, d) && OverMachine(nodes, power, x, t, u))
    || ((Stands(nodes, d, Unit) || Stands(nodes, d, Plant)) && OverMachine(nodes, power, x, t, d))
    || (t == Plant && Uncooled(nodes, cooling, d) && PlantOfItsSite(nodes, x, d))
  }

  // ----------------------------------------------------------- table by table

  lemma SitePlantIsDrawn(g: Topology, cooling: Edges, power: Edges, d: DeviceId, x: DeviceId, t: Tier)
    requires BuiltFrom(g, cooling, power) && d in g.nodes
    ensures (x, t) in SitePlant(g, d) <==> t == Plant && PlantOfItsSite(g.nodes, x, d)
  {
    hide FilesEdges, FilesBothWays, FilesRooms;
    var s := SiteOf(g, d);
    if s.Some? {
      assert x in Listed(g.sitePlant, Some(s.value)) <==> x !in {} && PlantOfSite(g.nodes, x, s.value);
    }
  }

  lemma FeedersAreDrawn(g: Topology, cooling: Edges, power: Edges, d: DeviceId, x: DeviceId, t: Tier)
    requires BuiltFrom(g, cooling, power)
    ensures (x, t) in Feeders(g, d) <==> t == Power && Drawn(g.nodes, power, x, d)
  {
    hide FilesSites, FilesBothWays, FilesRooms;
    assert x in Nbrs(g.feeders, d) <==> Known(g.nodes, power, x, d);
  }

  lemma ExplicitIsDrawn(g: Topology, cooling: Edges, power: Edges, d: DeviceId, u: DeviceId)
    requires BuiltFrom(g, cooling, power)
    ensures u in Explicit(g, d) <==> DrawnCooler(g.nodes, cooling, u, d)
  {
    hide FilesSites, FilesEdges, FilesRooms;
    assert u in Nbrs(g.coolingNbrs, d) <==> EitherWay(g.nodes, cooling, u, d);
  }

  lemma RoomUnitsAreDrawn(g: Topology, cooling: Edges, power: Edges, d: DeviceId, u: DeviceId)
    requires BuiltFrom(g, cooling, power)
    ensures u in Listed(g.roomUnits, RoomOf(g, d)) <==> RoomCooler(g.nodes, u, d)
  {
    hide FilesSites, FilesEdges, FilesBothWays;
    var r := RoomOf(g, d);
    if r.Some? {
      assert u in Listed(g.roomUnits, Some(r.value)) <==> u !in {} && CoolsRoom(g.nodes, u, r.value);
    }
  }

  lemma StandsAtItsTier(g: Topology, d: DeviceId, t: Tier)
    ensures TierOf(g, d) == Some(t) <==> Stands(g.nodes, d, t)
  {
  }

  lemma CoolersAreDrawn(g: Topology, cooling: Edges, power: Edges, d: DeviceId, u: DeviceId)
    requires BuiltFrom(g, cooling, power)
    ensures u in Coolers(g, d) <==> CooledBy(g.nodes, cooling, u, d)
  {
    hide BuiltFrom, DrawnCooler, RoomCooler, Explicit, TierOf, Stands;
    StandsAtItsTier(g, d, Server);
    ExplicitIsDrawn(g, cooling, power, d, u);
    RoomUnitsAreDrawn(g, cooling, power, d, u);
    forall m ensures m in Explicit(g, d) <==> DrawnCooler(g.nodes, cooling, m, d) {
      ExplicitIsDrawn(g, cooling, power, d, m);
    }
    if Explicit(g, d) != {} { NonEmpty(Explicit(g, d)); }
  }

  // ------------------------------------------------------------- walk by walk

  /** What a cooler brings is itself, at its own tier, and what stands over it. */
  lemma OverIsDrawn(g: Topology, cooling: Edges, power: Edges, u: DeviceId, x: DeviceId, t: Tier)
    requires BuiltFrom(g, cooling, power)
    requires Stands(g.nodes, u, Unit) || Stands(g.nodes, u, Plant)
    ensures (x, t) in Over(g, u) <==> (x == u && Stands(g.nodes, u, t)) || OverMachine(g.nodes, power, x, t, u)
  {
    hide BuiltFrom, SitePlant, Feeders, PlantOfItsSite;
    SitePlantIsDrawn(g, cooling, power, u, x, t);
    FeedersAreDrawn(g, cooling, power, u, x, t);
  }

  ghost predicate Brought(nodes: Nodes, power: Edges, us: set<DeviceId>, x: DeviceId, t: Tier) {
    (x in us && Stands(nodes, x, t)) || exists u :: u in us && OverMachine(nodes, power, x, t, u)
  }

  lemma AllOverIsDrawn(g: Topology, cooling: Edges, power: Edges, us: set<DeviceId>, x: DeviceId, t: Tier)
    requires BuiltFrom(g, cooling, power)
    requires forall u :: u in us ==> Stands(g.nodes, u, Unit) || Stands(g.nodes, u, Plant)
    ensures (x, t) in AllOver(g, us) <==> Brought(g.nodes, power, us, x, t)
  {
    hide BuiltFrom, Over, OverMachine, Stands;
    forall u | u in us
      ensures (x, t) in Over(g, u) <==> (x == u && Stands(g.nodes, u, t)) || OverMachine(g.nodes, power, x, t, u)
    {
      OverIsDrawn(g, cooling, power, u, x, t);
    }
  }

  lemma CoolersAreMachines(g: Topology, cooling: Edges, d: DeviceId, u: DeviceId)
    requires CooledBy(g.nodes, cooling, u, d)
    ensures Stands(g.nodes, u, Unit) || Stands(g.nodes, u, Plant)
  {
  }

  lemma FloorIsDrawn(g: Topology, cooling: Edges, power: Edges, d: DeviceId, x: DeviceId, t: Tier)
    requires BuiltFrom(g, cooling, power) && Floor(g.nodes, d)
    ensures (x, t) in FloorUpstream(g, d) <==> Reaches(g.nodes, cooling, power, x, t, d)
  {
    hide BuiltFrom, Coolers, SitePlant, PlantOfItsSite, AllOver, CooledBy, OverMachine;
    var us := Coolers(g, d);
    forall u ensures u in us <==> CooledBy(g.nodes, cooling, u, d) { CoolersAreDrawn(g, cooling, power, d, u); }
    forall u | u in us ensures Stands(g.nodes, u, Unit) || Stands(g.nodes, u, Plant) {
      CoolersAreMachines(g, cooling, d, u);
    }
    forall u ensures Carries(g.nodes, cooling, u, d) <==> u in us {}
    if us == {} {
      SitePlantIsDrawn(g, cooling, power, d, x, t);
    } else {
      NonEmpty(us);
      AllOverIsDrawn(g, cooling, power, us, x, t);
    }
  }

  lemma PlantIsDrawn(g: Topology, cooling: Edges, power: Edges, d: DeviceId, x: DeviceId, t: Tier)
    requires BuiltFrom(g, cooling, power) && Stands(g.nodes, d, Plant)
    ensures (x, t) in Upstream(g, d) <==> Reaches(g.nodes, cooling, power, x, t, d)
  {
    hide Feeders, AllOver, OverMachine, FilesBothWays, FilesRooms, FilesSites;
    var us := PlantAhead(g, d);
    forall u ensures u in us <==> Carries(g.nodes, cooling, u, d) {
      assert u in Nbrs(g.coolingUp, d) <==> Known(g.nodes, cooling, u, d);
    }
    hide FilesEdges;
    FeedersAreDrawn(g, cooling, power, d, x, t);
    AllOverIsDrawn(g, cooling, power, us, x, t);
    OverPlant(g.nodes, power, x, t, d);
  }

  lemma OverPlant(nodes: Nodes, power: Edges, x: DeviceId, t: Tier, d: DeviceId)
    requires Stands(nodes, d, Plant)
    ensures OverMachine(nodes, power, x, t, d) <==> t == Power && Drawn(nodes, power, x, d)
  {
  }

  /** The walk of `ancestors` arrives exactly where the paths do. */
  lemma ArrivalsAreThePaths(g: Topology, cooling: Edges, power: Edges, d: DeviceId, x: DeviceId, t: Tier)
    requires BuiltFrom(g, cooling, power)
    ensures (x, t) in Upstream(g, d) <==> Reaches(g.nodes, cooling, power, x, t, d)
  {
    hide BuiltFrom, CooledBy, OverMachine, FloorUpstream, SitePlant, Feeders;
    match TierOf(g, d) {
      case Some(Server) => FloorIsDrawn(g, cooling, power, d, x, t);
      case Some(Zone) => FloorIsDrawn(g, cooling, power, d, x, t);
      case Some(Plant) => PlantIsDrawn(g, cooling, power, d, x, t);
      case Some(Unit) =>
        SitePlantIsDrawn(g, cooling, power, d, x, t);
        FeedersAreDrawn(g, cooling, power, d, x, t);
        OverUnit(g.nodes, power, x, t, d);
      case _ =>
    }
  }

  lemma OverUnit(nodes: Nodes, power: Edges, x: DeviceId, t: Tier, d: DeviceId)
    requires Stands(nodes, d, Unit)
    ensures OverMachine(nodes, power, x, t, d) <==>
        (t == Power && Drawn(nodes, power, x, d)) || (t == Plant && PlantOfItsSite(nodes, x, d))
  {
  }

  // -------------------------------------------------------------- the theorem

  /** No path reaches `x` at a tier above `t`: power stands above plant, and plant above the units. */
  ghost predicate NoneHigher(nodes: Nodes, cooling: Edges, power: Edges, x: DeviceId, t: Tier, d: DeviceId) {
    && (t == Plant || t == Unit ==> !Reaches(nodes, cooling, power, x, Power, d))
    && (t == Unit ==> !Reaches(nodes, cooling, power, x, Plant, d))
  }

  /** Paths end at units, plant and feeders. */
  lemma PathsEndAtMachines(nodes: Nodes, cooling: Edges, power: Edges, x: DeviceId, t: Tier, d: DeviceId)
    requires Reaches(nodes, cooling, power, x, t, d)
    ensures t == Unit || t == Plant || t == Power
  {
  }

  /**
   `ancestors`, on any drawing and for any device, known or not: `x` is an ancestor acting at `t` exactly
   when some path from the device reaches it at `t`, none reaches it higher, and it is not the device.
   */
  lemma AncestorsAreThePaths(g: Topology, cooling: Edges, power: Edges, d: DeviceId, x: DeviceId, t: Tier)
    requires BuiltFrom(g, cooling, power)
    ensures (x in Ancestry(g, d) && Ancestry(g, d)[x] == t) <==>
        x != d && Reaches(g.nodes, cooling, power, x, t, d) && NoneHigher(g.nodes, cooling, power, x, t, d)
  {
    hide BuiltFrom, Reaches, Upstream;
    forall s ensures (x, s) in Upstream(g, d) <==> Reaches(g.nodes, cooling, power, x, s, d) {
      ArrivalsAreThePaths(g, cooling, power, d, x, s);
    }
    forall s | Reaches(g.nodes, cooling, power, x, s, d) ensures s == Unit || s == Plant || s == Power {
      PathsEndAtMachines(g.nodes, cooling, power, x, s, d);
    }
    TheHighest(Ancestry(g, d), d, Upstream(g, d), x, t);
  }

  /** Of the three tiers a walk arrives at, the one kept is the one none is above. */
  lemma TheHighest(out: map<DeviceId, Tier>, self: DeviceId, arrivals: set<(DeviceId, Tier)>, x: DeviceId, t: Tier)
    requires Highest(out, self, arrivals)
    requires forall s :: (x, s) in arrivals ==> s == Unit || s == Plant || s == Power
    ensures (x in out && out[x] == t) <==>
        && x != self && (x, t) in arrivals
        && (t == Plant || t == Unit ==> (x, Power) !in arrivals)
        && (t == Unit ==> (x, Plant) !in arrivals)
  {
    if x != self && (x, t) in arrivals {
      assert (x, t).0 == x && (x, t).1 == t;
      assert x in out && (x, out[x]) in arrivals;
      assert (x, Power) in arrivals ==> Rank((x, Power).1) <= Rank(out[x]);
      assert (x, Plant) in arrivals ==> Rank((x, Plant).1) <= Rank(out[x]);
    }
  }

  // ---------------------------------------------------------- what is not left out

  /** Whatever some path reaches is an ancestor, no lower than the path says. */
  lemma PathsAreNotLost(g: Topology, cooling: Edges, power: Edges, d: DeviceId, x: DeviceId, t: Tier)
    requires BuiltFrom(g, cooling, power) && x != d && Reaches(g.nodes, cooling, power, x, t, d)
    ensures x in Ancestry(g, d)
    ensures t == Power ==> Ancestry(g, d)[x] == Power
    ensures t == Plant ==> Ancestry(g, d)[x] == Plant || Ancestry(g, d)[x] == Power
  {
    ArrivalsAreThePaths(g, cooling, power, d, x, t);
    assert (x, t).0 == x && (x, t).1 == t;
  }

  /**
   The cascade from the plant to the rack: over any device on the floor that a unit cools stand the plant of
   the unit's site, the unit's feeders and the unit itself.
   */
  lemma TheChainOverTheFloor(g: Topology, cooling: Edges, power: Edges, d: DeviceId, u: DeviceId, x: DeviceId)
    requires BuiltFrom(g, cooling, power)
    requires Floor(g.nodes, d) && CooledBy(g.nodes, cooling, u, d) && Stands(g.nodes, u, Unit)
    ensures u in Ancestry(g, d)
    ensures PlantOfItsSite(g.nodes, x, u) && x != d ==> x in Ancestry(g, d) && Ancestry(g, d)[x] != Unit
    ensures Drawn(g.nodes, power, x, u) && x != d ==> x in Ancestry(g, d) && Ancestry(g, d)[x] == Power
  {
    hide BuiltFrom, CooledBy, Ancestry;
    assert Carries(g.nodes, cooling, u, d);
    PathsAreNotLost(g, cooling, power, d, u, Unit);
    if PlantOfItsSite(g.nodes, x, u) && x != d {
      assert OverMachine(g.nodes, power, x, Plant, u);
      PathsAreNotLost(g, cooling, power, d, x, Plant);
    }
    if Drawn(g.nodes, power, x, u) && x != d {
      assert OverMachine(g.nodes, power, x, Power, u);
      PathsAreNotLost(g, cooling, power, d, x, Power);
    }
  }

  /** A chiller, a CRAH of its site and a server in the CRAH's room: the server stands under both. */
  lemma AChillerOverARack(g: Topology)
    requires g.nodes == map[1 := Node(Chiller, None, Some(5)), 2 := Node(Crah, Some(7), Some(5)),
                            3 := Node(ServerBox, Some(7), Some(5))]
    requires BuiltFrom(g, [], [])
    ensures Ancestry(g, 3) == map[2 := Unit, 1 := Plant]
  {
    hide BuiltFrom, Ancestry, OverMachine, CooledBy;
    forall x, t
      ensures Reaches(g.nodes, [], [], x, t, 3) <==> (x == 2 && t == Unit) || (x == 1 && t == Plant)
    {
      OnlyTheCrahCools(g.nodes, x, t);
    }
    forall x
      ensures x in Ancestry(g, 3) <==> x == 1 || x == 2
      ensures x == 1 ==> Ancestry(g, 3)[x] == Plant
      ensures x == 2 ==> Ancestry(g, 3)[x] == Unit
    {
      AncestorsAreThePaths(g, [], [], 3, x, Unit);
      AncestorsAreThePaths(g, [], [], 3, x, Plant);
      if x in Ancestry(g, 3) { AncestorsAreThePaths(g, [], [], 3, x, Ancestry(g, 3)[x]); }
    }
  }

  lemma OnlyTheCrahCools(nodes: Nodes, x: DeviceId, t: Tier)
    requires nodes == map[1 := Node(Chiller, None, Some(5)), 2 := Node(Crah, Some(7), Some(5)),
                          3 := Node(ServerBox, Some(7), Some(5))]
    ensures Reaches(nodes, [], [], x, t, 3) <==> (x == 2 && t == Unit) || (x == 1 && t == Plant)
  {
    forall u ensures Carries(nodes, [], u, 3) <==> u == 2 {}
    forall y ensures OverMachine(nodes, [], y, t, 2) <==> y == 1 && t == Plant {}
    assert CooledBy(nodes, [], 2, 3);
    if Carries(nodes, [], x, 3) && Stands(nodes, x, t) { assert x == 2; }
    if u :| Carries(nodes, [], u, 3) && OverMachine(nodes, [], x, t, u) { assert u == 2; }
    if x == 2 && t == Unit { assert Carries(nodes, [], x, 3) && Stands(nodes, x, t); }
    if x == 1 && t == Plant { assert Carries(nodes, [], 2, 3) && OverMachine(nodes, [], x, t, 2); }
  }
}
