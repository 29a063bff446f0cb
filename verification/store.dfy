/**
 * The gateway store: the routing and admission state of one media gateway.
 * It caches the gateway's own metrics, keeps one service population per
 * service kind, turns incoming pings into population commands, and buffers
 * at most one outbound ping per tick.
 */
module Store {
  import opened Wrappers
  import opened Ints
  import opened Cluster
  import opened Usage
  import opened Registry
  import Service

  /** What a ping asks of one service population. */
  datatype Command =
    | NodePing(now: nat, node: NodeId, usage: U8, stats: ServiceStats)
    | RemoveNode(node: NodeId)
    | GatewayPing(now: nat, zone: ZoneId, node: NodeId, nodeUsage: U8, location: Location, usage: U8, stats: ServiceStats)
    | RemoveGateway(zone: ZoneId, node: NodeId)

  /** The commands one ping issues, per service kind, in order. */
  datatype Commands = Commands(webrtc: seq<Command>, rtpengine: seq<Command>)

  function Apply(ss: Service.ServiceStore, cmd: Command): (r: Service.ServiceStore)
    ensures r.zone == ss.zone && r.kind == ss.kind
    ensures Service.Valid(ss) && !(cmd.GatewayPing? && cmd.zone == ss.zone) ==> Service.Valid(r)
  {
    match cmd
    case NodePing(now, node, usage, stats) => Service.OnNodePing(ss, now, node, usage, stats)
    case RemoveNode(node) => Service.RemoveNode(ss, node)
    case GatewayPing(now, zone, node, nodeUsage, location, usage, stats) =>
      Service.OnGatewayPing(ss, now, zone, node, nodeUsage, location, usage, stats)
    case RemoveGateway(zone, node) => Service.RemoveGateway(ss, zone, node)
  }

  function ApplyAll(ss: Service.ServiceStore, cmds: seq<Command>): (r: Service.ServiceStore)
    ensures r.zone == ss.zone && r.kind == ss.kind
    ensures Service.Valid(ss) && (forall i :: 0 <= i < |cmds| ==> !(cmds[i].GatewayPing? && cmds[i].zone == ss.zone))
            ==> Service.Valid(r)
    decreases |cmds|
  {
    if cmds == [] then ss else ApplyAll(Apply(ss, cmds[0]), cmds[1..])
  }

  datatype GatewayStore = GatewayStore(
    zone: ZoneId,
    node: NodeMetrics,
    location: Location,
    webrtc: Service.ServiceStore,
    rtpengine: Service.ServiceStore,
    output: Option<PingEvent>,
    maxCpu: U8,
    maxMemory: U8,
    maxDisk: U8)

  function Population(s: GatewayStore, kind: ServiceKind): Service.ServiceStore {
    match kind
    case Webrtc => s.webrtc
    case RtpEngine => s.rtpengine
  }

  /** Both populations belong to this gateway's zone and never hold a gateway of it. */
  ghost predicate Valid(s: GatewayStore) {
    && Service.Valid(s.webrtc)
    && Service.Valid(s.rtpengine)
    && s.webrtc.zone == s.zone && s.webrtc.kind == Webrtc
    && s.rtpengine.zone == s.zone && s.rtpengine.kind == RtpEngine
  }

  function New(zone: ZoneId, location: Location, maxCpu: U8, maxMemory: U8, maxDisk: U8): (s: GatewayStore)
    ensures Valid(s)
    ensures s.output == None
    ensures s.node == NodeMetrics(0, 0, 0)
    ensures forall kind, n :: !Service.Tracks(Population(s, kind), n)
    ensures s.zone == zone && s.location == location
    ensures s.maxCpu == maxCpu && s.maxMemory == maxMemory && s.maxDisk == maxDisk
  {
    GatewayStore(
      zone, NodeMetrics(0, 0, 0), location,
      Service.New(zone, Webrtc, location), Service.New(zone, RtpEngine, location),
      None, maxCpu, maxMemory, maxDisk)
  }

  /** Replaces the cached metrics wholesale and changes nothing else. */
  function OnNodeMetrics(s: GatewayStore, now: nat, metrics: NodeMetrics): (r: GatewayStore)
    ensures r.node == metrics
    ensures r.(node := s.node) == s
  {
    s.(node := metrics)
  }

  /**
   * Sweeps both populations, then buffers this gateway's own report,
   * replacing any report nobody drained.
   */
  function OnTick(s: GatewayStore, now: nat): (r: GatewayStore)
    ensures r.output.Some?
    ensures r.output.value.origin == Gateway(GatewayOrigin(s.zone, Some(s.location)))
    ensures r.output.value.cpu == s.node.cpu
    ensures r.output.value.memory == s.node.memory
    ensures r.output.value.disk == s.node.disk
    ensures r.output.value.webrtc == LocalStats(r)
    ensures r.output.value.rtpengine == Service.LocalStats(r.rtpengine)
    ensures forall x :: x in r.webrtc.nodes <==> x in s.webrtc.nodes && Alive(x, now)
    ensures forall x :: x in r.webrtc.gateways <==> x in s.webrtc.gateways && Alive(x, now)
    ensures forall x :: x in r.rtpengine.nodes <==> x in s.rtpengine.nodes && Alive(x, now)
    ensures forall x :: x in r.rtpengine.gateways <==> x in s.rtpengine.gateways && Alive(x, now)
    ensures r.zone == s.zone && r.node == s.node && r.location == s.location
    ensures r.maxCpu == s.maxCpu && r.maxMemory == s.maxMemory && r.maxDisk == s.maxDisk
    ensures Valid(s) ==> Valid(r)
  {
    var webrtc := Service.OnTick(s.webrtc, now);
    var rtpengine := Service.OnTick(s.rtpengine, now);
    var ping := PingEvent(
      s.node.cpu, s.node.memory, s.node.disk,
      Gateway(GatewayOrigin(s.zone, Some(s.location))),
      Service.LocalStats(webrtc), Service.LocalStats(rtpengine));
    s.(webrtc := webrtc, rtpengine := rtpengine, output := Some(ping))
  }

  /** The usage computations of a ping do not panic under this store's ceilings. */
  predicate PingUsable(s: GatewayStore, ping: PingEvent) {
    && UsageDefined(ping, ping.webrtc, s.maxCpu, s.maxMemory, s.maxDisk)
    && UsageDefined(ping, ping.rtpengine, s.maxCpu, s.maxMemory, s.maxDisk)
  }

  /** The ping admits its sender to the population of `kind`. */
  predicate Admitted(s: GatewayStore, ping: PingEvent, kind: ServiceKind) {
    && BelowThresholds(ping, s.maxCpu, s.maxMemory, s.maxDisk)
    && StatsFor(ping, kind).Some?
    && StatsFor(ping, kind).value.active
  }

  /** The score an admitted sender is registered with. */
  function Score(s: GatewayStore, ping: PingEvent, kind: ServiceKind): U8
    requires PingUsable(s, ping)
    requires Admitted(s, ping, kind)
  {
    ServiceUsage(ping, StatsFor(ping, kind), s.maxCpu, s.maxMemory, s.maxDisk).value
  }

  /** The single command a media node's ping sends to the population of `kind`. */
  ghost predicate NodeVerdict(s: GatewayStore, now: nat, from: NodeId, ping: PingEvent, kind: ServiceKind, cmds: seq<Command>)
    requires PingUsable(s, ping)
  {
    if Admitted(s, ping, kind) then
      cmds == [NodePing(now, from, Score(s, ping, kind), StatsFor(ping, kind).value)]
    else
      cmds == [RemoveNode(from)]
  }

  /**
   * The population commands of one ping. A node's ping is judged per kind;
   * a ping from this gateway's own zone is dropped; a ping from another
   * zone's gateway can only refresh the webrtc population, and any missing
   * piece removes that gateway from both populations.
   */
  function PingCommands(s: GatewayStore, now: nat, from: NodeId, ping: PingEvent): (c: Commands)
    requires PingUsable(s, ping)
    ensures ping.origin.Media? ==> NodeVerdict(s, now, from, ping, Webrtc, c.webrtc)
    ensures ping.origin.Media? ==> NodeVerdict(s, now, from, ping, RtpEngine, c.rtpengine)
    ensures ping.origin.Gateway? && ping.origin.gateway.zone == s.zone ==> c == Commands([], [])
    ensures ping.origin.Gateway? && ping.origin.gateway.zone != s.zone ==>
              var g := ping.origin.gateway;
              if Admitted(s, ping, Webrtc) && g.location.Some? then
                && c.webrtc == [GatewayPing(now, g.zone, from, ping.cpu, g.location.value, Score(s, ping, Webrtc), ping.webrtc.value)]
                && c.rtpengine == []
              else
                && c.webrtc == [RemoveGateway(g.zone, from)]
                && c.rtpengine == [RemoveGateway(g.zone, from)]
  {
    var nodeUsage := NodeUsage(ping, s.maxCpu, s.maxMemory, s.maxDisk);
    var webrtcUsage := WebrtcUsage(ping, s.maxCpu, s.maxMemory, s.maxDisk);
    var rtpengineUsage := RtpengineUsage(ping, s.maxCpu, s.maxMemory, s.maxDisk);
    match ping.origin
    case Media =>
      Commands(
        if nodeUsage.Some? && webrtcUsage.Some? && ping.webrtc.Some? then
          [NodePing(now, from, webrtcUsage.value, ping.webrtc.value)]
        else
          [RemoveNode(from)],
        if nodeUsage.Some? && rtpengineUsage.Some? && ping.rtpengine.Some? then
          [NodePing(now, from, rtpengineUsage.value, ping.rtpengine.value)]
        else
          [RemoveNode(from)])
    case Gateway(gateway) =>
      if gateway.zone == s.zone then
        Commands([], [])
      else if nodeUsage.Some? && webrtcUsage.Some? && gateway.location.Some? && ping.webrtc.Some? then
        Commands(
          [GatewayPing(now, gateway.zone, from, nodeUsage.value, gateway.location.value, webrtcUsage.value, ping.webrtc.value)],
          [])
      else
        Commands([RemoveGateway(gateway.zone, from)], [RemoveGateway(gateway.zone, from)])
  }

  /** Handles a ping from node `from` by applying its commands to each population. */
  function OnPing(s: GatewayStore, now: nat, from: NodeId, ping: PingEvent): (r: GatewayStore)
    requires PingUsable(s, ping)
    ensures ping.origin.Gateway? && ping.origin.gateway.zone == s.zone ==> r == s
    ensures r.(webrtc := s.webrtc, rtpengine := s.rtpengine) == s
    ensures Valid(s) ==> Valid(r)
  {
    var c := PingCommands(s, now, from, ping);
    s.(webrtc := ApplyAll(s.webrtc, c.webrtc), rtpengine := ApplyAll(s.rtpengine, c.rtpengine))
  }

  function BestFor(s: GatewayStore, kind: ServiceKind, location: Option<Location>): (r: Option<NodeId>)
    ensures r.None? <==> Population(s, kind).nodes == [] && Population(s, kind).gateways == []
    ensures Population(s, kind).nodes != [] ==> r.Some? && r.value in Keys(Population(s, kind).nodes)
    ensures r.Some? ==> Service.Tracks(Population(s, kind), r.value)
  {
    match kind
    case Webrtc => Service.BestFor(s.webrtc, location)
    case RtpEngine => Service.BestFor(s.rtpengine, location)
  }

  function DestFor(s: GatewayStore, kind: ServiceKind, dest: NodeId): (r: Option<NodeId>)
    ensures r.Some? ==> r.value == dest
    ensures r.Some? <==> Service.Tracks(Population(s, kind), dest)
  {
    match kind
    case Webrtc => Service.DestFor(s.webrtc, dest)
    case RtpEngine => Service.DestFor(s.rtpengine, dest)
  }

  /** The statistics of this zone's webrtc nodes; rtpengine is never exposed here. */
  function LocalStats(s: GatewayStore): (r: Option<ServiceStats>)
    ensures r.None? <==> s.webrtc.nodes == []
    ensures |s.webrtc.nodes| == 1 ==> r == Some(s.webrtc.nodes[0].data.stats)
  {
    Service.LocalStats(s.webrtc)
  }

  /** Drains the buffered report, leaving the slot empty. */
  function PopOutput(s: GatewayStore): (r: (Option<PingEvent>, GatewayStore))
    ensures r.0 == s.output
    ensures r.1.output == None
    ensures r.1.(output := s.output) == s
  {
    (s.output, s.(output := None))
  }
}
