# Gateway store and VP8 descriptor, modelled in Dafny

This project models two sequential cores of a media server.

**The media gateway's routing and admission store.** A gateway receives pings from the media nodes of its own zone and from the gateways of other zones.
- Three evaluators turn each ping and three configured ceilings (CPU, memory, disk) into a usage score, or refuse it. These are `node_usage`, `webrtc_usage` and `rtpengine_usage`.
- The store dispatches each ping on its origin. It turns the ping into commands for two service populations, one for WebRTC and one for RTPengine.
- On every tick it expires stale entries and buffers one outbound report about itself. `pop_output` hands that report out once.
- `best_for`, `dest_for` and `local_stats` query the populations.

**The VP8 RTP payload descriptor** (section 4.2 of RFC 7741), as the WebRTC transport reads and rewrites it.
- `parse_rtp` walks the descriptor with a cursor. It reports the key-frame flag and the simulcast/temporal-layer information: spatial layer, temporal layer, PictureID, TL0PICIDX and layer sync.
- The key-frame flag uses the P bit of the VP8 payload header (section 4.3 of RFC 7741).
- `rewrite_rtp` overwrites PictureID and TL0PICIDX in place. It keeps PictureID's one- or two-byte width.

## Files

| file | module | contents |
|---|---|---|
| `wrappers.dfy` | `Wrappers` | `Option` |
| `ints.dfy` | `Ints` | `U8`, `U16`, `U32` as integer ranges |
| `cluster.dfy` | `Cluster` | ping event, service statistics, origins, node metrics |
| `usage.dfy` | `Usage` | the three usage evaluators and the `as u8` fill computation |
| `registry.dfy` | `Registry` | keyed entries with a last-seen time; upsert, removal, expiry |
| `service.dfy` | `Service` | a minimal population per service kind |
| `store.dfy` | `Store` | `GatewayStore` and its operations; pings become population commands |
| `store_properties.dfy` | `StoreProperties` | properties that relate several store operations |
| `store_scenarios.dfy` | `StoreScenarios` | the store's unit-test scenarios, stated as lemmas |
| `vp8.dfy` | `Vp8` | parser, rewriter, a fixed-offset reference reading, the round trip |
| `vp8_examples.dfy` | `Vp8Examples` | concrete packets |

## Modelling choices

- **Functional state.** Every state change is a pure function from the old store to a new one.
- **Population commands.** `on_ping` is modelled in two layers. `Store.PingCommands` gives, per service kind, the commands the source issues: `on_node_ping`, `remove_node`, `on_gateway_ping` and `remove_gateway`. These commands can be compared line by line with store.rs. `Store.OnPing` then applies them to a minimal population.
- **Minimal population.** Each population holds two duplicate-free lists of entries, each entry with its last-seen time. An entry is alive while `now < lastSeen + 5000`. The store's own test uses a timeout of 5000.
- **Byte arithmetic.** Bytes are integers in 0..255 and PictureID is an integer in 0..65535. The transport's bit operations are written as the arithmetic they amount to:
  - `(b & mask) >> k` for a one-bit mask is `Flag`;
  - `b & 0x07` is `b % 8`;
  - `(hi << 8) | lo` is `hi * 0x100 + lo`;
  - `0x80 | x` is `SetTop`;
  - `v as u8` is `v % 0x100`.
- **Reference reading.** Each flag and field position is also defined by fixed offsets: `ExtBit`, `PicIdBit`, `LongPicId`, `Tl0Index`, `TkIndex`, `DescriptorLen` and `PictureIdAt`. The parser's cursor-based walk is proved to agree with them.
- **Panics become preconditions.**
  - In the usage evaluators, `live * 100 / max` panics on `max == 0`, and `live * 100` overflows `u32`. `Usage.FillDefined` requires neither to happen.
  - `rewrite_rtp` indexes without bounds checks. `Vp8.Rewritable` requires the bytes it touches to exist.
- **Zero capacity.** A capacity of 0 divides by zero at store.rs:169. The model requires `max > 0` and adds no fallback.
- **Wrap-around above capacity.** `as u8` truncates, so a service above capacity can score low. `Usage.FillWrapsAboveCapacity` shows three sessions on a capacity of one scoring 44.

## Model

| member | source | states |
|---|---|---|
| Usage.NodeUsage | packages/media_gateway/src/store.rs:139-153 | Some exactly when CPU, memory and disk are each strictly below their ceiling (reaching one rejects); the score is then the CPU load |
| Usage.AsU8 | packages/media_gateway/src/store.rs:169 | `as u8` keeps a value below 256 unchanged and otherwise changes it by a multiple of 256 |
| Usage.ServiceUsage | packages/media_gateway/src/store.rs:155-187 | Some exactly when the node is below all ceilings and the kind's statistics are present and active; the score is the larger of CPU load and session fill |
| Usage.WebrtcUsage | packages/media_gateway/src/store.rs:155-170 | the service score judged on the webrtc statistics: refused when any ceiling is reached or the statistics are absent or inactive, otherwise the maximum of CPU load and fill |
| Usage.RtpengineUsage | packages/media_gateway/src/store.rs:172-187 | the same judgement on the rtpengine statistics |
| Usage.ServiceUsageRefinesNodeUsage | packages/media_gateway/src/store.rs:139-187 | a service score implies a node score and is never below it |
| Usage.FillWithinCapacity | packages/media_gateway/src/store.rs:169 | with sessions at most capacity, the fill is the exact integer percentage and at most 100 |
| Usage.FillWrapsAboveCapacity | packages/media_gateway/src/store.rs:169 | above capacity the truncation wraps: 3 sessions on capacity 1 score 44 |
| Registry.Expire | packages/media_gateway/src/store.rs:355-359 | after a sweep at `now`, an entry remains exactly when it was refreshed less than 5000 before; duplicate-freedom is kept |
| Service.OnNodePing | packages/media_gateway/src/store.rs:82 | the node's entry is replaced by one with the new score, statistics and time; other nodes and all gateways stay |
| Service.RemoveNode | packages/media_gateway/src/store.rs:85 | the node is gone; every other entry stays |
| Service.OnGatewayPing | packages/media_gateway/src/store.rs:102 | the (zone, gateway) entry is replaced by the new one; local nodes stay |
| Service.RemoveGateway | packages/media_gateway/src/store.rs:104-105 | the (zone, gateway) entry is gone; every other entry stays |
| Service.OnTick | packages/media_gateway/src/store.rs:55-56 | both lists keep exactly their live entries |
| Service.New | packages/media_gateway/src/store.rs:39-40 | a new population keeps its zone and kind and tracks no node, local or remote |
| Service.BestFor | packages/media_gateway/src/store.rs:114-115 | None exactly when the population is empty; a local node whenever one exists; otherwise a node id of a tracked remote gateway |
| Service.DestFor | packages/media_gateway/src/store.rs:123-124 | returns Some(dest) exactly when `dest` is a local node or the node id of a tracked gateway; otherwise None |
| Service.LocalStats | packages/media_gateway/src/store.rs:66-67 | None exactly when there is no local node; with one local node, exactly that node's statistics |
| Store.New | packages/media_gateway/src/store.rs:36-48 | a fresh store tracks no node of either kind, has no buffered report and zero metrics, and keeps zone, location and ceilings |
| Store.OnNodeMetrics | packages/media_gateway/src/store.rs:50-52 | the cached metrics are replaced wholesale and nothing else changes |
| Store.OnTick | packages/media_gateway/src/store.rs:54-72 | both populations keep exactly their live entries; the buffered report has origin gateway(own zone, own location), the cached CPU/memory/disk, and each population's local statistics after the sweep |
| Store.PingCommands | packages/media_gateway/src/store.rs:74-110 | a node's ping sends each kind one command: refresh with the kind's score when admitted for that kind, removal otherwise; a same-zone gateway ping sends nothing; another zone's gateway is refreshed in webrtc only when admitted with a location, and otherwise removed from both kinds |
| Store.OnPing | packages/media_gateway/src/store.rs:74-110 | a same-zone gateway ping leaves the store unchanged; a ping changes only the populations, and keeps both duplicate-free and free of own-zone gateways |
| Store.BestFor | packages/media_gateway/src/store.rs:112-119 | asks the population of the requested kind: None exactly when it is empty, a local node whenever one exists, and always a node that population tracks |
| Store.DestFor | packages/media_gateway/src/store.rs:121-128 | Some(dest) exactly when the population of the requested kind tracks `dest` |
| Store.LocalStats | packages/media_gateway/src/store.rs:130-132 | the webrtc population's statistics: None exactly when it has no local node, and the node's own statistics when it has one |
| Store.PopOutput | packages/media_gateway/src/store.rs:134-136 | returns the buffered report and leaves the slot empty, with nothing else changed |
| StoreProperties.MediaPingEffect | packages/media_gateway/src/store.rs:80-95 | a node's ping puts the sender with its score into a kind's population exactly when admitted for that kind, evicts it otherwise, and leaves every other node and all gateways alone |
| StoreProperties.MediaKindsIndependent | packages/media_gateway/src/store.rs:80-95 | a kind's population after a node's ping depends only on the load figures and that kind's statistics, not on the other kind's |
| StoreProperties.GatewayPingEffect | packages/media_gateway/src/store.rs:96-108 | a ping from another zone's gateway registers it in webrtc when admitted with a location and leaves rtpengine unchanged; otherwise it is in neither population; local nodes and every other gateway entry of both populations are untouched |
| StoreProperties.RtpengineNeverGainsGateways | packages/media_gateway/src/store.rs:101-107 | no ping of any origin adds a gateway to the rtpengine population |
| StoreProperties.AdmittedNodeIsRoutable | packages/media_gateway/src/store.rs:81-89 | right after an admitted node's ping, `best_for` offers a local node and `dest_for` confirms the sender |
| StoreProperties.OverloadedNodeIsNotRoutable | packages/media_gateway/src/store.rs:81-93 | a node at or over any ceiling is in no population afterwards; if it was the only candidate, `best_for` finds none |
| StoreProperties.TickOverwritesOutput | packages/media_gateway/src/store.rs:71 | the tick's report does not depend on an undrained earlier report |
| StoreProperties.TickReportsLatestMetrics | packages/media_gateway/src/store.rs:50-61 | the report carries the metrics last passed to `on_node_metrics` |
| StoreProperties.DrainOnce | packages/media_gateway/src/store.rs:134-136 | after a tick the first drain returns the report and a second drain returns None |
| StoreProperties.TickReachability | packages/media_gateway/src/store.rs:55-56 | after a tick, a live node is still confirmed by `dest_for`, and a stale one is no longer listed |
| StoreProperties.TickClearsStale | packages/media_gateway/src/store.rs:355-359 | when every entry of a kind is stale, after a tick `best_for` and `dest_for` find nothing |
| StoreProperties.LocalStatsIgnoresRtpengine | packages/media_gateway/src/store.rs:130-132 | the store's own statistics never depend on the rtpengine population |
| StoreScenarios.LocalPing | packages/media_gateway/src/store.rs:200-234 | a local node pinging with 100 of 1000 sessions is offered for webrtc; nothing is buffered before the tick, and the report afterwards carries its statistics |
| StoreScenarios.LocalRejectMaxUsage | packages/media_gateway/src/store.rs:236-279 | with ceilings (60, 80, 90), nodes reporting (10, 80, 20), (10, 20, 90) and (60, 80, 20) are all refused |
| StoreScenarios.RemotePing | packages/media_gateway/src/store.rs:281-318 | a gateway of zone 256 is offered for webrtc, and the tick report carries no local statistics |
| StoreScenarios.ClearTimeout | packages/media_gateway/src/store.rs:320-360 | a node and another zone's gateway both ping at time 0; the local node is chosen, and after a tick at 5000 nothing is |
| StoreScenarios.ClearTimeoutRtpengine | packages/media_gateway/src/store.rs:362-402 | the same expiry for rtpengine; the node is chosen before the tick, nothing after it, and the remote gateway is never registered |
| Vp8.ReadControl | packages/transport_webrtc/src/media/vp8.rs:13-31 | X, N, S and PID come from byte 0; I, L, T and K come from byte 1 only when X is set, otherwise zero; the cursor stops after them |
| Vp8.ReadPictureId | packages/transport_webrtc/src/media/vp8.rs:33-44 | with I set, PictureID is the 15-bit value of two bytes when M is set, and the single byte otherwise; the cursor reaches the reference TL0PICIDX position |
| Vp8.ReadTl0PicIdx | packages/transport_webrtc/src/media/vp8.rs:50-53 | with L set, TL0PICIDX is the byte at its reference position |
| Vp8.ReadTidKeyIdx | packages/transport_webrtc/src/media/vp8.rs:59-69 | with T set, TID is the top two bits and Y the next bit of the T/K byte; with K set, KEYIDX is its low five bits; the cursor reaches the reference descriptor length |
| Vp8.ParseDescriptor | packages/transport_webrtc/src/media/vp8.rs:4-73 | succeeds exactly when the packet has at least 4 bytes and a byte after the descriptor; every field agrees with the fixed-offset reading |
| Vp8.ParseRtp | packages/transport_webrtc/src/media/vp8.rs:4-101 | None for fewer than 4 bytes or no payload byte. Key frame iff S set, PID 0 and a clear P bit. Layer information iff T is set; it holds the rid (or 0), temporal layer ≤ 3, the Y bit, PictureID iff I, TL0PICIDX iff L. Orientation passed through |
| Vp8.LongPictureIdBytes | packages/transport_webrtc/src/media/vp8.rs:123-124 | the two bytes written for a 15-bit PictureID keep M set and read back as the low 15 bits of the value |
| Vp8.WriteLongPictureId | packages/transport_webrtc/src/media/vp8.rs:121-125 | only bytes 2 and 3 change; M stays set; they read back as the low 15 bits |
| Vp8.WriteShortPictureId | packages/transport_webrtc/src/media/vp8.rs:126-130 | only byte 2 changes; M stays clear; it holds the low 7 bits |
| Vp8.RewriteFlags | packages/transport_webrtc/src/media/vp8.rs:106-117 | the rewriter sees I and L exactly as the reference reading does, and its cursor is after the extension byte |
| Vp8.RewritePictureId | packages/transport_webrtc/src/media/vp8.rs:119-131 | only PictureID's bytes change, in the width M announces; the cursor reaches the TL0PICIDX position |
| Vp8.RewriteTl0PicIdx | packages/transport_webrtc/src/media/vp8.rs:133-137 | with L set only the TL0PICIDX byte changes, to the new value; without L nothing changes |
| Vp8.PictureIdReadBack | packages/transport_webrtc/src/media/vp8.rs:123-128 | bytes written that way read back as PictureID truncated to 15 or 7 bits |
| Vp8.RewriteRtp | packages/transport_webrtc/src/media/vp8.rs:103-138 | length kept; every byte other than PictureID and TL0PICIDX unchanged, so bytes 0–1, the T/K byte and the payload too; all flags and the M bit kept; PictureID reads back as the new value truncated to the packet's width; TL0PICIDX is the new value (0 when absent) |
| Vp8.ParsedIsRewritable | packages/transport_webrtc/src/media/vp8.rs:103-138 | every packet the parser accepts has all the bytes the rewriter touches, and they lie inside the descriptor |
| Vp8.RewriteRoundTrip | packages/transport_webrtc/src/media/vp8.rs:4-138 | parsing a rewritten accepted packet succeeds with the same key flag, orientation and layer information, except PictureID (new value, truncated) and TL0PICIDX (new value) wherever the packet carries them |
| Vp8Examples.FullPacketParses | packages/transport_webrtc/src/media/vp8.rs:4-101 | a key-frame packet with every optional field parses to PictureID 0x1234, TL0PICIDX 5, temporal layer 1 with layer sync |
| Vp8Examples.NoTidNoSim | packages/transport_webrtc/src/media/vp8.rs:98-100 | without T there is no layer information, even with I and L set |
| Vp8Examples.DescriptorWithoutPayload | packages/transport_webrtc/src/media/vp8.rs:71-73 | a descriptor that fills the packet is refused |
| Vp8Examples.FullPacketRewrite | packages/transport_webrtc/src/media/vp8.rs:103-138 | rewriting with PictureID 0xABCD keeps the two-byte width and reads back as 0x2BCD |

## Left out

- `store/service.rs` is not part of this model, so its behaviour is inferred from how store.rs uses it:
  - `ServiceStore::new` and `best_for` receive a `Location` (store.rs:39-40, 114-115). This suggests a ranking of candidates that takes distance into account; the model does not rank.
  - `local_stats` returns a single `ServiceStats` per population (store.rs:66-67, 131). This suggests some aggregation over the local nodes; the model's rule for several nodes is its own.
  - The exact expiry rule is unknown. The model's rule matches the timeout that store.rs's tests exercise.
  - `Service` is a minimal stand-in. Its `best_for`, `dest_for` and `local_stats` rules are assumptions about the missing file.
- Service.BestFor: promises only that a local node wins over remote gateways and that the answer is tracked. It does not rank candidates, because service.rs is not part of this model; it returns the first candidate.
- Store.BestFor: inherits the weaker promise of `Service.BestFor`; `location` is passed on and has no effect.
- Service.DestFor: confirms a remote gateway by its node id, whatever its zone. No test in store.rs calls `dest_for`, so this rule is an assumption about service.rs.
- Store.DestFor: inherits the assumed rule of `Service.DestFor`.
- Service.LocalStats: for several nodes it promises only that the result is `Some`. That promise, and the model's rule of adding up sessions and capacity and reporting active when any node is, are assumptions about service.rs: store.rs's tests pin only the no-node case (`remote_ping`) and the one-node case (`local_ping`).
- Store.LocalStats: inherits the promise of `Service.LocalStats`, including the assumed `Some` for several nodes.
- Usage.WebrtcUsage: requires `max > 0` and `live * 100 < 2^32`, because the source panics on division by zero and its `u32` multiplication overflows.
- Usage.RtpengineUsage: the same preconditions as `Usage.WebrtcUsage`, for the same reason.
- Store.OnPing: requires those preconditions for both statistics of every ping, because the source computes all three usages before it looks at the origin.
- Vp8.RewriteRtp: requires the descriptor bytes it indexes to exist, because the source indexes without bounds checks and would panic.
- Logging (`log::*`) is left out.
- `Location` (floating-point latitude and longitude) is an opaque value that is only passed through. No distance is computed.
- Times are unbounded naturals, so `u64` wrap-around of `now` is not modelled. The unused `now` of `on_node_metrics` is kept as a parameter.
- `NodeMetrics` is reduced to the three fields the store reads: CPU, memory and disk.
- `MediaOrientation` is a type parameter of `ParseRtp` that is handed through.
- `BitRead` (`bit_read.rs`) is not part of this model. The reader's position is the parser's cursor, which the source keeps in step with `payload_index`.
- The SDN handler service, the RTPengine worker, `f16`, SQL migrations, the binary's configuration, the re-export module and the RTPengine control transport are not part of this model.
