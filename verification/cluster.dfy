/**
 * Values exchanged between media nodes and gateways: the decoded form of the
 * cluster ping event and the identifiers and statistics it carries.
 */
module Cluster {
  import opened Wrappers
  import opened Ints

  type NodeId = U32

  type ZoneId = U32

  /**
   * A geographic position. It is only stored and handed on, never computed
   * with, so the model keeps it as an opaque pair.
   */
  datatype Location = Location(lat: real, lon: real)

  /** Session load of one service: live sessions, capacity, and whether it accepts more. */
  datatype ServiceStats = ServiceStats(live: U32, max: U32, active: bool)

  datatype GatewayOrigin = GatewayOrigin(zone: U32, location: Option<Location>)

  /** Who sent a ping: a media node of this zone, or the gateway of some zone. */
  datatype Origin = Media | Gateway(gateway: GatewayOrigin)

  datatype PingEvent = PingEvent(
    cpu: U8,
    memory: U8,
    disk: U8,
    origin: Origin,
    webrtc: Option<ServiceStats>,
    rtpengine: Option<ServiceStats>)

  /** The gateway's own resource usage, in percent; all zero by default. */
  datatype NodeMetrics = NodeMetrics(cpu: U8, memory: U8, disk: U8)

  datatype ServiceKind = Webrtc | RtpEngine

  /** The statistics a ping carries for one service kind. */
  function StatsFor(ping: PingEvent, kind: ServiceKind): Option<ServiceStats> {
    match kind
    case Webrtc => ping.webrtc
    case RtpEngine => ping.rtpengine
  }
}
