/**
 * Admission evaluators: they turn a ping and the three configured ceilings
 * into a usage score, or into `None` when the sender must not take new work.
 */
module Usage {
  import opened Wrappers
  import opened Ints
  import opened Cluster

  /** Every ceiling is an open upper bound: reaching it already rejects. */
  predicate BelowThresholds(ping: PingEvent, maxCpu: U8, maxMemory: U8, maxDisk: U8) {
    ping.cpu < maxCpu && ping.memory < maxMemory && ping.disk < maxDisk
  }

  /** Rust's `as u8` on an unsigned value: keep the low eight bits. */
  function AsU8(x: nat): (r: U8)
    ensures x < 0x100 ==> r == x
    ensures (x - r) % 0x100 == 0
  {
    x % 0x100
  }

  /**
   * The fill computation is defined when it neither divides by zero nor
   * overflows `live * 100` in 32 bits: division by zero panics, and
   * `live * 100` overflows `u32`.
   */
  predicate FillDefined(stats: ServiceStats) {
    stats.max > 0 && stats.live * 100 < 0x1_0000_0000
  }

  /** Session fill in percent, truncated to `u8` as the source does. */
  function Fill(stats: ServiceStats): U8
    requires FillDefined(stats)
  {
    AsU8(stats.live * 100 / stats.max)
  }

  /** Integer division by `m` stays at or below `c` when `a` does not exceed `c * m`. */
  lemma DivAtMost(a: nat, m: nat, c: nat)
    requires m > 0
    requires a <= c * m
    ensures a / m <= c
  {
    var q := a / m;
    assert q * m <= a;
    if q > c {
      assert false;
    }
  }

  /** Within capacity the fill is the exact integer percentage and at most 100. */
  lemma FillWithinCapacity(stats: ServiceStats)
    requires FillDefined(stats)
    requires stats.live <= stats.max
    ensures Fill(stats) == stats.live * 100 / stats.max
    ensures Fill(stats) <= 100
  {
    DivAtMost(stats.live * 100, stats.max, 100);
  }

  /**
   * Above capacity the truncation to `u8` can make a service look lightly
   * loaded: three sessions on a capacity of one score 44, not 300.
   */
  lemma FillWrapsAboveCapacity()
    ensures Fill(ServiceStats(3, 1, true)) == 44
  {
  }

  /** What a service evaluator needs of its inputs in order not to panic. */
  predicate UsageDefined(ping: PingEvent, stats: Option<ServiceStats>, maxCpu: U8, maxMemory: U8, maxDisk: U8) {
    BelowThresholds(ping, maxCpu, maxMemory, maxDisk) && stats.Some? && stats.value.active
    ==> FillDefined(stats.value)
  }

  function NodeUsage(ping: PingEvent, maxCpu: U8, maxMemory: U8, maxDisk: U8): (r: Option<U8>)
    ensures r.Some? <==> BelowThresholds(ping, maxCpu, maxMemory, maxDisk)
    ensures r.Some? ==> r.value == ping.cpu
  {
    if ping.cpu >= maxCpu then None
    else if ping.memory >= maxMemory then None
    else if ping.disk >= maxDisk then None
    else Some(ping.cpu)
  }

  /**
   * The shared body of the per-kind evaluators: the node gates, then the
   * kind's statistics must be present and active, and the score is the worse
   * of CPU load and session fill.
   */
  function ServiceUsage(ping: PingEvent, stats: Option<ServiceStats>, maxCpu: U8, maxMemory: U8, maxDisk: U8): (r: Option<U8>)
    requires UsageDefined(ping, stats, maxCpu, maxMemory, maxDisk)
    ensures r.Some? <==> BelowThresholds(ping, maxCpu, maxMemory, maxDisk) && stats.Some? && stats.value.active
    ensures r.Some? ==> r.value >= ping.cpu && r.value >= Fill(stats.value)
    ensures r.Some? ==> r.value == ping.cpu || r.value == Fill(stats.value)
  {
    if ping.cpu >= maxCpu then None
    else if ping.memory >= maxMemory then None
    else if ping.disk >= maxDisk then None
    else match stats
      case None => None
      case Some(s) =>
        if s.active then
          var fill := Fill(s);
          Some(if ping.cpu >= fill then ping.cpu else fill)
        else None
  }

  function WebrtcUsage(ping: PingEvent, maxCpu: U8, maxMemory: U8, maxDisk: U8): (r: Option<U8>)
    requires UsageDefined(ping, ping.webrtc, maxCpu, maxMemory, maxDisk)
    ensures r.Some? <==> BelowThresholds(ping, maxCpu, maxMemory, maxDisk) && ping.webrtc.Some? && ping.webrtc.value.active
    ensures r.Some? ==> r.value >= ping.cpu && r.value >= Fill(ping.webrtc.value)
    ensures r.Some? ==> r.value == ping.cpu || r.value == Fill(ping.webrtc.value)
  {
    ServiceUsage(ping, ping.webrtc, maxCpu, maxMemory, maxDisk)
  }

  function RtpengineUsage(ping: PingEvent, maxCpu: U8, maxMemory: U8, maxDisk: U8): (r: Option<U8>)
    requires UsageDefined(ping, ping.rtpengine, maxCpu, maxMemory, maxDisk)
    ensures r.Some? <==> BelowThresholds(ping, maxCpu, maxMemory, maxDisk) && ping.rtpengine.Some? && ping.rtpengine.value.active
    ensures r.Some? ==> r.value >= ping.cpu && r.value >= Fill(ping.rtpengine.value)
    ensures r.Some? ==> r.value == ping.cpu || r.value == Fill(ping.rtpengine.value)
  {
    ServiceUsage(ping, ping.rtpengine, maxCpu, maxMemory, maxDisk)
  }

  /** A service score implies an admissible node and never undercuts the node score. */
  lemma ServiceUsageRefinesNodeUsage(ping: PingEvent, stats: Option<ServiceStats>, maxCpu: U8, maxMemory: U8, maxDisk: U8)
    requires UsageDefined(ping, stats, maxCpu, maxMemory, maxDisk)
    ensures ServiceUsage(ping, stats, maxCpu, maxMemory, maxDisk).Some? ==>
              NodeUsage(ping, maxCpu, maxMemory, maxDisk).Some? &&
              ServiceUsage(ping, stats, maxCpu, maxMemory, maxDisk).value >= NodeUsage(ping, maxCpu, maxMemory, maxDisk).value
  {
  }
}
