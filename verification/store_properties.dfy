/**
 * Properties of the gateway store that relate several calls: what a ping
 * does to each population, how ticks expire entries and produce the
 * outbound report, and the scenarios the store's own tests pin down.
 */
module StoreProperties {
  import opened Wrappers
  import opened Ints
  import opened Cluster
  import opened Usage
  import opened Registry
  import Service
  import opened Store

  lemma ApplyOne(ss: Service.ServiceStore, cmd: Command)
    ensures ApplyAll(ss, [cmd]) == Apply(ss, cmd)
  {
    assert [cmd][1..] == [];
  }

  /**
   * A media node's ping refreshes the sender in the population of `kind`
   * exactly when it is admitted for that kind, and evicts it otherwise;
   * nothing else in that population changes.
   */
  lemma MediaPingEffect(s: GatewayStore, now: nat, from: NodeId, ping: PingEvent, kind: ServiceKind)
    requires PingUsable(s, ping)
    requires ping.origin.Media?
    ensures var p := Population(OnPing(s, now, from, ping), kind);
      && (Admitted(s, ping, kind) ==>
            Entry(from, Service.NodeData(Score(s, ping, kind), StatsFor(ping, kind).value), now) in p.nodes)
      && (!Admitted(s, ping, kind) ==> from !in Keys(p.nodes))
      && (forall x :: x in Population(s, kind).nodes && x.key != from ==> x in p.nodes)
      && (forall x :: x in p.nodes && x.key != from ==> x in Population(s, kind).nodes)
      && p.gateways == Population(s, kind).gateways
  {
    var c := PingCommands(s, now, from, ping);
    ApplyOne(s.webrtc, c.webrtc[0]);
    ApplyOne(s.rtpengine, c.rtpengine[0]);
  }

  /** The webrtc verdict on a node's ping ignores its rtpengine statistics, and vice versa. */
  lemma MediaKindsIndependent(s: GatewayStore, now: nat, from: NodeId, p1: PingEvent, p2: PingEvent, kind: ServiceKind)
    requires PingUsable(s, p1) && PingUsable(s, p2)
    requires p1.origin.Media? && p2.origin.Media?
    requires p1.cpu == p2.cpu && p1.memory == p2.memory && p1.disk == p2.disk
    requires StatsFor(p1, kind) == StatsFor(p2, kind)
    ensures Population(OnPing(s, now, from, p1), kind) == Population(OnPing(s, now, from, p2), kind)
  {
    var c1 := PingCommands(s, now, from, p1);
    var c2 := PingCommands(s, now, from, p2);
    assert Admitted(s, p1, kind) == Admitted(s, p2, kind);
    if Admitted(s, p1, kind) {
      assert Score(s, p1, kind) == Score(s, p2, kind);
    }
    match kind
    case Webrtc => assert c1.webrtc == c2.webrtc;
    case RtpEngine => assert c1.rtpengine == c2.rtpengine;
  }

  /**
   * A ping from another zone's gateway registers it for webrtc when it is
   * admitted and says where it is; otherwise it is removed from both
   * populations. Local nodes and every other gateway are untouched either way.
   */
  lemma GatewayPingEffect(s: GatewayStore, now: nat, from: NodeId, ping: PingEvent)
    requires PingUsable(s, ping)
    requires ping.origin.Gateway? && ping.origin.gateway.zone != s.zone
    ensures var r := OnPing(s, now, from, ping);
      var g := ping.origin.gateway;
      && r.webrtc.nodes == s.webrtc.nodes
      && r.rtpengine.nodes == s.rtpengine.nodes
      && (forall x: Service.GatewaySource :: x.key != (g.zone, from) ==> (x in r.webrtc.gateways <==> x in s.webrtc.gateways))
      && (forall x: Service.GatewaySource :: x.key != (g.zone, from) ==> (x in r.rtpengine.gateways <==> x in s.rtpengine.gateways))
      && (Admitted(s, ping, Webrtc) && g.location.Some? ==>
            && Entry((g.zone, from), Service.GatewayData(ping.cpu, g.location.value, Score(s, ping, Webrtc), ping.webrtc.value), now)
                 in r.webrtc.gateways
            && r.rtpengine == s.rtpengine)
      && (!(Admitted(s, ping, Webrtc) && g.location.Some?) ==>
            && (g.zone, from) !in Keys(r.webrtc.gateways)
            && (g.zone, from) !in Keys(r.rtpengine.gateways))
  {
    var c := PingCommands(s, now, from, ping);
    ApplyOne(s.webrtc, c.webrtc[0]);
    if c.rtpengine != [] {
      ApplyOne(s.rtpengine, c.rtpengine[0]);
    }
  }

  /** No ping of any origin ever adds a gateway to the rtpengine population. */
  lemma RtpengineNeverGainsGateways(s: GatewayStore, now: nat, from: NodeId, ping: PingEvent)
    requires PingUsable(s, ping)
    ensures forall g :: g in OnPing(s, now, from, ping).rtpengine.gateways ==> g in s.rtpengine.gateways
  {
    var c := PingCommands(s, now, from, ping);
    if c.rtpengine != [] {
      ApplyOne(s.rtpengine, c.rtpengine[0]);
    }
  }

  /** An admitted node can be chosen and confirmed right away, with no tick in between. */
  lemma AdmittedNodeIsRoutable(s: GatewayStore, now: nat, from: NodeId, ping: PingEvent, kind: ServiceKind, location: Option<Location>)
    requires PingUsable(s, ping)
    requires ping.origin.Media?
    requires Admitted(s, ping, kind)
    ensures var r := OnPing(s, now, from, ping);
      && BestFor(r, kind, location).Some?
      && BestFor(r, kind, location).value in Keys(Population(r, kind).nodes)
      && DestFor(r, kind, from) == Some(from)
  {
    MediaPingEffect(s, now, from, ping, kind);
    var p := Population(OnPing(s, now, from, ping), kind);
    var e := Entry(from, Service.NodeData(Score(s, ping, kind), StatsFor(ping, kind).value), now);
    assert e in p.nodes;
    assert from in Keys(p.nodes);
  }

  /**
   * A node over any ceiling is dropped from every population; on a store
   * that tracked nobody else it leaves no candidate at all.
   */
  lemma OverloadedNodeIsNotRoutable(s: GatewayStore, now: nat, from: NodeId, ping: PingEvent, kind: ServiceKind, location: Option<Location>)
    requires PingUsable(s, ping)
    requires ping.origin.Media?
    requires !BelowThresholds(ping, s.maxCpu, s.maxMemory, s.maxDisk)
    ensures from !in Keys(Population(OnPing(s, now, from, ping), kind).nodes)
    ensures (forall x :: x in Population(s, kind).nodes ==> x.key == from) && Population(s, kind).gateways == []
            ==> BestFor(OnPing(s, now, from, ping), kind, location) == None
  {
    MediaPingEffect(s, now, from, ping, kind);
    HeadOrEmpty(Population(OnPing(s, now, from, ping), kind).nodes);
  }

  /** The report a tick buffers does not depend on any report left undrained. */
  lemma TickOverwritesOutput(s: GatewayStore, now: nat, pending: Option<PingEvent>)
    ensures OnTick(s.(output := pending), now) == OnTick(s, now)
  {
  }

  /** The metrics last given to the store are the ones the next report carries. */
  lemma TickReportsLatestMetrics(s: GatewayStore, t: nat, metrics: NodeMetrics, now: nat)
    ensures var report := OnTick(OnNodeMetrics(s, t, metrics), now).output.value;
      report.cpu == metrics.cpu && report.memory == metrics.memory && report.disk == metrics.disk
  {
  }

  /** A tick's report is handed out once; the next drain without a tick finds nothing. */
  lemma DrainOnce(s: GatewayStore, now: nat)
    ensures var ticked := OnTick(s, now);
      && PopOutput(ticked).0 == ticked.output
      && PopOutput(ticked).0.Some?
      && PopOutput(PopOutput(ticked).1).0 == None
  {
  }

  /** After a tick, an entry is reachable exactly when it was refreshed within the timeout. */
  lemma TickReachability(s: GatewayStore, now: nat, kind: ServiceKind, x: Service.NodeSource)
    requires x in Population(s, kind).nodes
    ensures Alive(x, now) ==> DestFor(OnTick(s, now), kind, x.key) == Some(x.key)
    ensures Valid(s) && !Alive(x, now) ==> x.key !in Keys(Population(OnTick(s, now), kind).nodes)
  {
    var p := Population(OnTick(s, now), kind);
    if Alive(x, now) {
      assert x in p.nodes;
      assert x.key in Keys(p.nodes);
    }
    if Valid(s) && !Alive(x, now) {
      forall y | y in p.nodes
        ensures y.key != x.key
      {
        DistinctKeysDiffer(Population(s, kind).nodes, x, y);
      }
    }
  }

  /** When every entry of a population is stale, a tick leaves nothing to route to. */
  lemma TickClearsStale(s: GatewayStore, now: nat, kind: ServiceKind, location: Option<Location>)
    requires forall x :: x in Population(s, kind).nodes ==> x.lastSeen + PING_TIMEOUT <= now
    requires forall x :: x in Population(s, kind).gateways ==> x.lastSeen + PING_TIMEOUT <= now
    ensures BestFor(OnTick(s, now), kind, location) == None
    ensures forall n :: DestFor(OnTick(s, now), kind, n) == None
  {
    var p := Population(OnTick(s, now), kind);
    HeadOrEmpty(p.nodes);
    HeadOrEmpty(p.gateways);
  }

  /** The store's own statistics never depend on the rtpengine population. */
  lemma LocalStatsIgnoresRtpengine(s: GatewayStore, rtpengine: Service.ServiceStore)
    ensures LocalStats(s.(rtpengine := rtpengine)) == LocalStats(s)
  {
  }
}
