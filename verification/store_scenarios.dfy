/**
 * The scenarios of the gateway store's unit tests, stated over the model:
 * zone 0 at (1, 1), ceilings cpu 60, memory 80, disk 90.
 */
module StoreScenarios {
  import opened Wrappers
  import opened Ints
  import opened Cluster
  import opened Usage
  import opened Registry
  import Service
  import opened Store
  import opened StoreProperties

  function Fresh(): (s: GatewayStore)
    ensures Valid(s)
  {
    New(0, Location(1.0, 1.0), 60, 80, 90)
  }

  function Stats100of1000(): ServiceStats {
    ServiceStats(100, 1000, true)
  }

  function NodeReport(cpu: U8, memory: U8, disk: U8, webrtc: Option<ServiceStats>, rtpengine: Option<ServiceStats>): PingEvent {
    PingEvent(cpu, memory, disk, Media, webrtc, rtpengine)
  }

  function ZoneReport(zone: ZoneId, cpu: U8, memory: U8, disk: U8, webrtc: Option<ServiceStats>, rtpengine: Option<ServiceStats>): PingEvent {
    PingEvent(cpu, memory, disk, Gateway(GatewayOrigin(zone, Some(Location(2.0, 2.0)))), webrtc, rtpengine)
  }

  /**
   * An idle node with 100 of 1000 webrtc sessions becomes the best webrtc
   * node; no report is pending until a tick, which then reports the zone's
   * webrtc statistics.
   */
  lemma LocalPing()
    ensures var s1 := OnPing(Fresh(), 0, 1, NodeReport(0, 0, 0, Some(Stats100of1000()), None));
      && BestFor(s1, Webrtc, None) == Some(1)
      && PopOutput(s1).0 == None
      && PopOutput(OnTick(PopOutput(s1).1, 100)).0 ==
           Some(PingEvent(0, 0, 0, Gateway(GatewayOrigin(0, Some(Location(1.0, 1.0)))), Some(Stats100of1000()), None))
  {
    var ping := NodeReport(0, 0, 0, Some(Stats100of1000()), None);
    var s1 := OnPing(Fresh(), 0, 1, ping);
    var e: Service.NodeSource := Entry(1, Service.NodeData(10, Stats100of1000()), 0);
    assert PingCommands(Fresh(), 0, 1, ping).webrtc == [NodePing(0, 1, 10, Stats100of1000())];
    ApplyOne(Fresh().webrtc, NodePing(0, 1, 10, Stats100of1000()));
    assert s1.webrtc.nodes == [e];
    var s2 := OnTick(PopOutput(s1).1, 100);
    assert Alive(e, 100);
    assert s2.webrtc.nodes == [e] by {
      HeadOrEmpty(s2.webrtc.nodes);
    }
  }

  /** Each of three nodes is over one ceiling (memory 80, disk 90, cpu 60), so none is routable. */
  lemma LocalRejectMaxUsage()
    ensures var s1 := OnPing(Fresh(), 0, 1, NodeReport(10, 80, 20, Some(Stats100of1000()), None));
      var s2 := OnPing(s1, 0, 2, NodeReport(10, 20, 90, Some(Stats100of1000()), None));
      var s3 := OnPing(s2, 0, 3, NodeReport(60, 80, 20, Some(Stats100of1000()), None));
      BestFor(s3, Webrtc, None) == None
  {
    var s1 := OnPing(Fresh(), 0, 1, NodeReport(10, 80, 20, Some(Stats100of1000()), None));
    OverloadedNodeIsNotRoutable(Fresh(), 0, 1, NodeReport(10, 80, 20, Some(Stats100of1000()), None), Webrtc, None);
    var s2 := OnPing(s1, 0, 2, NodeReport(10, 20, 90, Some(Stats100of1000()), None));
    OverloadedNodeIsNotRoutable(s1, 0, 2, NodeReport(10, 20, 90, Some(Stats100of1000()), None), Webrtc, None);
    OverloadedNodeIsNotRoutable(s2, 0, 3, NodeReport(60, 80, 20, Some(Stats100of1000()), None), Webrtc, None);
  }

  /**
   * With no local node, the gateway of zone 256 is the webrtc fallback; this
   * gateway's next report carries no webrtc statistics of its own.
   */
  lemma RemotePing()
    ensures var s1 := OnPing(Fresh(), 0, 257, ZoneReport(256, 0, 0, 0, Some(Stats100of1000()), None));
      && BestFor(s1, Webrtc, None) == Some(257)
      && PopOutput(s1).0 == None
      && PopOutput(OnTick(PopOutput(s1).1, 100)).0 ==
           Some(PingEvent(0, 0, 0, Gateway(GatewayOrigin(0, Some(Location(1.0, 1.0)))), None, None))
  {
    var ping := ZoneReport(256, 0, 0, 0, Some(Stats100of1000()), None);
    var s1 := OnPing(Fresh(), 0, 257, ping);
    var cmd := GatewayPing(0, 256, 257, 0, Location(2.0, 2.0), 10, Stats100of1000());
    assert PingCommands(Fresh(), 0, 257, ping).webrtc == [cmd];
    ApplyOne(Fresh().webrtc, cmd);
    assert s1.webrtc.gateways == [Entry((256, 257), Service.GatewayData(0, Location(2.0, 2.0), 10, Stats100of1000()), 0)];
  }

  /** A node and a remote gateway both reported at time 0; the local node wins, and at 5000 both are gone. */
  lemma ClearTimeout()
    ensures var s1 := OnPing(Fresh(), 0, 1, NodeReport(10, 20, 30, Some(Stats100of1000()), None));
      var s2 := OnPing(s1, 0, 257, ZoneReport(1, 10, 20, 30, Some(Stats100of1000()), None));
      && BestFor(s2, Webrtc, None) == Some(1)
      && BestFor(OnTick(s2, 5000), Webrtc, None) == None
  {
    var p1 := NodeReport(10, 20, 30, Some(Stats100of1000()), None);
    var s1 := OnPing(Fresh(), 0, 1, p1);
    FillWithinCapacity(Stats100of1000());
    var c1 := NodePing(0, 1, 10, Stats100of1000());
    assert PingCommands(Fresh(), 0, 1, p1).webrtc == [c1];
    ApplyOne(Fresh().webrtc, c1);
    var p2 := ZoneReport(1, 10, 20, 30, Some(Stats100of1000()), None);
    var s2 := OnPing(s1, 0, 257, p2);
    var c2 := GatewayPing(0, 1, 257, 10, Location(2.0, 2.0), 10, Stats100of1000());
    assert PingCommands(s1, 0, 257, p2).webrtc == [c2];
    ApplyOne(s1.webrtc, c2);
    assert s2.webrtc.nodes == [Entry(1, Service.NodeData(10, Stats100of1000()), 0)];
    assert s2.webrtc.gateways == [Entry((1, 257), Service.GatewayData(10, Location(2.0, 2.0), 10, Stats100of1000()), 0)];
    TickClearsStale(s2, 5000, Webrtc, None);
  }

  /** The same timeout scenario for the rtpengine population; the remote gateway never enters it. */
  lemma ClearTimeoutRtpengine()
    ensures var s1 := OnPing(Fresh(), 0, 1, NodeReport(10, 20, 30, None, Some(Stats100of1000())));
      var s2 := OnPing(s1, 0, 257, ZoneReport(1, 10, 20, 30, None, Some(Stats100of1000())));
      && BestFor(s2, RtpEngine, None) == Some(1)
      && BestFor(OnTick(s2, 5000), RtpEngine, None) == None
      && s2.rtpengine.gateways == []
  {
    var p1 := NodeReport(10, 20, 30, None, Some(Stats100of1000()));
    var s1 := OnPing(Fresh(), 0, 1, p1);
    FillWithinCapacity(Stats100of1000());
    var c1 := NodePing(0, 1, 10, Stats100of1000());
    assert PingCommands(Fresh(), 0, 1, p1).rtpengine == [c1];
    ApplyOne(Fresh().rtpengine, c1);
    var p2 := ZoneReport(1, 10, 20, 30, None, Some(Stats100of1000()));
    var s2 := OnPing(s1, 0, 257, p2);
    var c2 := RemoveGateway(1, 257);
    assert PingCommands(s1, 0, 257, p2).rtpengine == [c2];
    ApplyOne(s1.rtpengine, c2);
    assert s2.rtpengine.nodes == [Entry(1, Service.NodeData(10, Stats100of1000()), 0)];
    assert s2.rtpengine.gateways == [];
    TickClearsStale(s2, 5000, RtpEngine, None);
  }
}
