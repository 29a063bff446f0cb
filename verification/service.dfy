/**
 * The population of one service kind as a gateway sees it: live media nodes
 * of its own zone, and live gateways of other zones. Only the behaviour the
 * gateway store relies on is modelled: upsert, removal, expiry, and the three
 * queries, whose contracts promise membership and locality precedence but no
 * particular choice among several candidates.
 */
module Service {
  import opened Wrappers
  import opened Ints
  import opened Cluster
  import opened Registry

  datatype NodeData = NodeData(usage: U8, stats: ServiceStats)

  datatype GatewayData = GatewayData(nodeUsage: U8, location: Location, usage: U8, stats: ServiceStats)

  type NodeSource = Entry<NodeId, NodeData>

  type GatewaySource = Entry<(ZoneId, NodeId), GatewayData>

  datatype ServiceStore = ServiceStore(
    zone: ZoneId,
    kind: ServiceKind,
    location: Location,
    nodes: seq<NodeSource>,
    gateways: seq<GatewaySource>)

  /** One entry per node, one per (zone, gateway), and no gateway of the own zone. */
  ghost predicate Valid(ss: ServiceStore) {
    && Distinct(ss.nodes)
    && Distinct(ss.gateways)
    && forall g :: g in ss.gateways ==> g.key.0 != ss.zone
  }

  /** Is `node` tracked, either as a local node or as a gateway of some zone? */
  ghost predicate Tracks(ss: ServiceStore, node: NodeId) {
    node in Keys(ss.nodes) || exists g :: g in ss.gateways && g.key.1 == node
  }

  function New(zone: ZoneId, kind: ServiceKind, location: Location): (ss: ServiceStore)
    ensures Valid(ss)
    ensures forall n :: !Tracks(ss, n)
    ensures ss.zone == zone && ss.kind == kind
  {
    ServiceStore(zone, kind, location, [], [])
  }

  function OnNodePing(ss: ServiceStore, now: nat, node: NodeId, usage: U8, stats: ServiceStats): (r: ServiceStore)
    ensures Entry(node, NodeData(usage, stats), now) in r.nodes
    ensures forall x :: x in r.nodes && x.key == node ==> x == Entry(node, NodeData(usage, stats), now)
    ensures forall x :: x in ss.nodes && x.key != node ==> x in r.nodes
    ensures forall x :: x in r.nodes ==> x.key == node || x in ss.nodes
    ensures r.gateways == ss.gateways
    ensures r.zone == ss.zone && r.kind == ss.kind && r.location == ss.location
    ensures Valid(ss) ==> Valid(r)
  {
    ss.(nodes := Upsert(ss.nodes, Entry(node, NodeData(usage, stats), now)))
  }

  function RemoveNode(ss: ServiceStore, node: NodeId): (r: ServiceStore)
    ensures forall x :: x in r.nodes <==> x in ss.nodes && x.key != node
    ensures node !in Keys(r.nodes)
    ensures r.gateways == ss.gateways
    ensures r.zone == ss.zone && r.kind == ss.kind && r.location == ss.location
    ensures Valid(ss) ==> Valid(r)
  {
    ss.(nodes := Remove(ss.nodes, node))
  }

  function OnGatewayPing(
    ss: ServiceStore, now: nat, zone: ZoneId, node: NodeId,
    nodeUsage: U8, location: Location, usage: U8, stats: ServiceStats): (r: ServiceStore)
    ensures Entry((zone, node), GatewayData(nodeUsage, location, usage, stats), now) in r.gateways
    ensures forall x :: x in r.gateways && x.key == (zone, node) ==>
              x == Entry((zone, node), GatewayData(nodeUsage, location, usage, stats), now)
    ensures forall x :: x in ss.gateways && x.key != (zone, node) ==> x in r.gateways
    ensures forall x :: x in r.gateways ==> x.key == (zone, node) || x in ss.gateways
    ensures r.nodes == ss.nodes
    ensures r.zone == ss.zone && r.kind == ss.kind && r.location == ss.location
    ensures Valid(ss) && zone != ss.zone ==> Valid(r)
  {
    ss.(gateways := Upsert(ss.gateways, Entry((zone, node), GatewayData(nodeUsage, location, usage, stats), now)))
  }

  function RemoveGateway(ss: ServiceStore, zone: ZoneId, node: NodeId): (r: ServiceStore)
    ensures forall x :: x in r.gateways <==> x in ss.gateways && x.key != (zone, node)
    ensures (zone, node) !in Keys(r.gateways)
    ensures r.nodes == ss.nodes
    ensures r.zone == ss.zone && r.kind == ss.kind && r.location == ss.location
    ensures Valid(ss) ==> Valid(r)
  {
    ss.(gateways := Remove(ss.gateways, (zone, node)))
  }

  /** Sweeps out every entry, local or remote, not refreshed within `PING_TIMEOUT`. */
  function OnTick(ss: ServiceStore, now: nat): (r: ServiceStore)
    ensures forall x :: x in r.nodes <==> x in ss.nodes && Alive(x, now)
    ensures forall x :: x in r.gateways <==> x in ss.gateways && Alive(x, now)
    ensures r.zone == ss.zone && r.kind == ss.kind && r.location == ss.location
    ensures Valid(ss) ==> Valid(r)
  {
    ss.(nodes := Expire(ss.nodes, now), gateways := Expire(ss.gateways, now))
  }

  /**
   * A node to place a new session on: any local node wins over every remote
   * gateway. Among several candidates the model takes the first one; the
   * real ranking by score and distance is not part of this model, and
   * `location` only steers that ranking.
   */
  function BestFor(ss: ServiceStore, location: Option<Location>): (r: Option<NodeId>)
    ensures r.None? <==> ss.nodes == [] && ss.gateways == []
    ensures ss.nodes != [] ==> r.Some? && r.value in Keys(ss.nodes)
    ensures ss.nodes == [] && r.Some? ==> exists g :: g in ss.gateways && g.key.1 == r.value
  {
    if ss.nodes != [] then Some(ss.nodes[0].key)
    else if ss.gateways != [] then Some(ss.gateways[0].key.1)
    else None
  }

  /** Confirms that an already chosen node is still tracked. */
  function DestFor(ss: ServiceStore, dest: NodeId): (r: Option<NodeId>)
    ensures r.Some? ==> r.value == dest
    ensures r.Some? <==> Tracks(ss, dest)
  {
    if (exists i :: 0 <= i < |ss.nodes| && ss.nodes[i].key == dest)
       || (exists i :: 0 <= i < |ss.gateways| && ss.gateways[i].key.1 == dest)
    then Some(dest)
    else None
  }

  function SumLive(nodes: seq<NodeSource>): nat {
    if nodes == [] then 0 else nodes[0].data.stats.live + SumLive(nodes[1..])
  }

  function SumMax(nodes: seq<NodeSource>): nat {
    if nodes == [] then 0 else nodes[0].data.stats.max + SumMax(nodes[1..])
  }

  function AnyActive(nodes: seq<NodeSource>): (r: bool)
    ensures r <==> exists x :: x in nodes && x.data.stats.active
  {
    if nodes == [] then false
    else nodes[0].data.stats.active || AnyActive(nodes[1..])
  }

  /**
   * The statistics this gateway publishes for its own zone: nothing without
   * local nodes, and exactly the node's statistics with one. With several
   * nodes the model adds up sessions and capacity (wrapping at 32 bits) and
   * reports active when any node is.
   */
  function LocalStats(ss: ServiceStore): (r: Option<ServiceStats>)
    ensures r.None? <==> ss.nodes == []
    ensures |ss.nodes| == 1 ==> r == Some(ss.nodes[0].data.stats)
  {
    if ss.nodes == [] then None
    else
      assert |ss.nodes| == 1 ==>
        SumLive(ss.nodes) == ss.nodes[0].data.stats.live &&
        SumMax(ss.nodes) == ss.nodes[0].data.stats.max &&
        AnyActive(ss.nodes) == ss.nodes[0].data.stats.active
      by {
        if |ss.nodes| == 1 {
          assert ss.nodes[1..] == [];
          assert forall x :: x in ss.nodes ==> x == ss.nodes[0];
        }
      }
      Some(ServiceStats(
      SumLive(ss.nodes) % 0x1_0000_0000,
      SumMax(ss.nodes) % 0x1_0000_0000,
      AnyActive(ss.nodes)))
  }
}
