/**
 * The VP8 RTP payload descriptor (section 4.2 of RFC 7741) as read by the
 * WebRTC transport: a parser that extracts the fields a selective forwarder
 * needs, and a rewriter that replaces PictureID and TL0PICIDX in place.
 *
 *      0 1 2 3 4 5 6 7
 *     +-+-+-+-+-+-+-+-+
 *     |X|R|N|S|R| PID |  always present
 *  X: |I|L|T|K| RSV   |
 *  I: |M| PictureID   |  (a second PictureID byte when M is set)
 *  L: |   TL0PICIDX   |
 * T/K:|TID|Y| KEYIDX  |
 *     +-+-+-+-+-+-+-+-+
 *
 * Bytes are integers in 0..255. The transport's bit operations on them are
 * written as the arithmetic they amount to: `(b & mask) >> k` for a one-bit
 * mask is `Flag(b, mask)`, `b & 0x07` is `b % 8`, `b >> 6` is `b / 0x40`,
 * and `(hi << 8) | lo` is `hi * 0x100 + lo`.
 */
module Vp8 {
  import opened Wrappers
  import opened Ints

  /** The descriptor's fields, each a small unsigned value as the parser stores it. */
  datatype Vp8Header = Vp8Header(
    x: U8,
    n: U8,
    s: U8,
    pid: U8,
    i: U8,
    l: U8,
    t: U8,
    k: U8,
    pictureId: U16,
    tl0PicIdx: U8,
    tid: U8,
    y: U8,
    keyIdx: U8)

  /** Simulcast and temporal-layer information of one packet. */
  datatype Vp8Sim = Vp8Sim(
    spatial: U8,
    temporal: U8,
    pictureId: Option<U16>,
    tl0PicIdx: Option<U8>,
    layerSync: bool)

  /** What the parser reports; the orientation `R` is handed through untouched. */
  datatype MediaMeta<R> = Vp8(key: bool, sim: Option<Vp8Sim>, rotation: Option<R>)

  /** A parsed descriptor and the index of the first byte after it. */
  datatype Descriptor = Descriptor(header: Vp8Header, payloadIndex: nat)

  /**
   * `(b & mask) >> k` for the one-bit mask `1 << k`: 1 when the part of `b`
   * below the next higher bit reaches `mask`, 0 otherwise.
   */
  function Flag(b: U8, mask: int): U8
    requires mask == 0x80 || mask == 0x40 || mask == 0x20 || mask == 0x10
  {
    if b % (2 * mask) >= mask then 1 else 0
  }

  // Reference reading of the descriptor by fixed offsets. A bit is set when
  // the part of the byte below the next higher bit reaches its value; each
  // flag is false when the byte that would hold it is missing.

  predicate ExtBit(p: seq<U8>) {
    |p| > 0 && p[0] >= 0x80
  }

  predicate PicIdBit(p: seq<U8>) {
    ExtBit(p) && |p| > 1 && p[1] >= 0x80
  }

  predicate Tl0Bit(p: seq<U8>) {
    ExtBit(p) && |p| > 1 && p[1] % 0x80 >= 0x40
  }

  predicate TidBit(p: seq<U8>) {
    ExtBit(p) && |p| > 1 && p[1] % 0x40 >= 0x20
  }

  predicate KeyIdxBit(p: seq<U8>) {
    ExtBit(p) && |p| > 1 && p[1] % 0x20 >= 0x10
  }

  /** The M bit: PictureID takes 15 bits over two bytes instead of 7 bits in one. */
  predicate LongPicId(p: seq<U8>) {
    PicIdBit(p) && |p| > 2 && p[2] >= 0x80
  }

  function PicIdLen(p: seq<U8>): nat {
    if !PicIdBit(p) then 0 else if LongPicId(p) then 2 else 1
  }

  /** Where TL0PICIDX sits when present: after byte 0, the extension byte and PictureID. */
  function Tl0Index(p: seq<U8>): nat {
    (if ExtBit(p) then 2 else 1) + PicIdLen(p)
  }

  /** Where the TID/Y/KEYIDX byte sits when present. */
  function TkIndex(p: seq<U8>): nat {
    Tl0Index(p) + (if Tl0Bit(p) then 1 else 0)
  }

  /** Length of the whole descriptor: the index of the VP8 payload header. */
  function DescriptorLen(p: seq<U8>): nat {
    TkIndex(p) + (if TidBit(p) || KeyIdxBit(p) then 1 else 0)
  }

  /** A 15-bit PictureID from its two bytes: the first one without the M bit, then the second. */
  function Join(hi: U8, lo: U8): U16 {
    hi % 0x80 * 0x100 + lo
  }

  /** The low 15 bits of a PictureID for the two-byte form, the low 7 for the one-byte form. */
  function Truncated(pictureId: U16, long: bool): U16 {
    if long then pictureId % 0x8000 else pictureId % 0x80
  }

  /** PictureID as it stands at offset 2, without the M bit. */
  function PictureIdAt(p: seq<U8>): U16
    requires PicIdBit(p) && |p| > 2
    requires LongPicId(p) ==> |p| > 3
  {
    if LongPicId(p) then Join(p[2], p[3]) else p[2]
  }

  function Bit(b: bool): U8 {
    if b then 1 else 0
  }

  /** The fields of byte 0: X, N, S and PID; everything else still zero. */
  function ReadFirstByte(b: U8): (h: Vp8Header)
    ensures h.x == Bit(b >= 0x80) && h.n == Bit(b % 0x40 >= 0x20)
    ensures h.s == Bit(b % 0x20 >= 0x10) && h.pid == b % 8
    ensures h.i == 0 && h.l == 0 && h.t == 0 && h.k == 0
    ensures h.pictureId == 0 && h.tl0PicIdx == 0 && h.tid == 0 && h.y == 0 && h.keyIdx == 0
  {
    Vp8Header(Flag(b, 0x80), Flag(b, 0x20), Flag(b, 0x10), b % 8, 0, 0, 0, 0, 0, 0, 0, 0, 0)
  }

  /** The flags of the extension byte: I, L, T and K. */
  function ReadExtension(h: Vp8Header, e: U8): (r: Vp8Header)
    ensures r.i == Bit(e >= 0x80) && r.l == Bit(e % 0x80 >= 0x40)
    ensures r.t == Bit(e % 0x40 >= 0x20) && r.k == Bit(e % 0x20 >= 0x10)
    ensures r.(i := h.i, l := h.l, t := h.t, k := h.k) == h
  {
    h.(i := Flag(e, 0x80), l := Flag(e, 0x40), t := Flag(e, 0x20), k := Flag(e, 0x10))
  }

  /** Byte 0 and, when X is set, the extension byte; the cursor stops after them. */
  function ReadControl(packet: seq<U8>): (r: (Vp8Header, nat))
    requires |packet| >= 4
    ensures r.1 == (if ExtBit(packet) then 2 else 1)
    ensures
      var h := r.0;
      && h.x == Bit(ExtBit(packet))
      && h.n == Bit(packet[0] % 0x40 >= 0x20)
      && h.s == Bit(packet[0] % 0x20 >= 0x10)
      && h.pid == packet[0] % 8
      && h.i == Bit(PicIdBit(packet))
      && h.l == Bit(Tl0Bit(packet))
      && h.t == Bit(TidBit(packet))
      && h.k == Bit(KeyIdxBit(packet))
      && h.pictureId == 0 && h.tl0PicIdx == 0 && h.tid == 0 && h.y == 0 && h.keyIdx == 0
  {
    var h := ReadFirstByte(packet[0]);
    if h.x == 1 then (ReadExtension(h, packet[1]), 2) else (h, 1)
  }

  /** PictureID, one or two bytes wide, when I is set. */
  function ReadPictureId(packet: seq<U8>, h: Vp8Header, idx: nat): (r: (Vp8Header, nat))
    requires |packet| >= 4
    requires idx == (if ExtBit(packet) then 2 else 1)
    requires h.i == Bit(PicIdBit(packet))
    ensures r.1 == Tl0Index(packet)
    ensures r.0 == if PicIdBit(packet) then h.(pictureId := PictureIdAt(packet)) else h
  {
    if h.i == 1 then
      var m := packet[idx];
      if Flag(m, 0x80) > 0 then
        // Widened first: the product no longer fits a byte.
        (h.(pictureId := (m % 0x80) as int * 0x100 + packet[idx + 1]), idx + 2)
      else
        (h.(pictureId := m), idx + 1)
    else
      (h, idx)
  }

  /** TL0PICIDX, when L is set. */
  function ReadTl0PicIdx(packet: seq<U8>, h: Vp8Header, idx: nat): (r: (Vp8Header, nat))
    requires idx == Tl0Index(packet) < |packet|
    requires h.l == Bit(Tl0Bit(packet))
    ensures r.1 == TkIndex(packet)
    ensures r.0 == if Tl0Bit(packet) then h.(tl0PicIdx := packet[Tl0Index(packet)]) else h
  {
    if h.l == 1 then (h.(tl0PicIdx := packet[idx]), idx + 1) else (h, idx)
  }

  /** The TID/Y/KEYIDX byte, when T or K is set; only the announced fields are taken from it. */
  function ReadTidKeyIdx(packet: seq<U8>, h: Vp8Header, idx: nat): (r: (Vp8Header, nat))
    requires idx == TkIndex(packet) < |packet|
    requires h.t == Bit(TidBit(packet)) && h.k == Bit(KeyIdxBit(packet))
    ensures r.1 == DescriptorLen(packet)
    ensures TidBit(packet) ==> r.0.tid == packet[TkIndex(packet)] / 0x40
    ensures TidBit(packet) ==> (r.0.y == 1 <==> packet[TkIndex(packet)] % 0x40 >= 0x20)
    ensures KeyIdxBit(packet) ==> r.0.keyIdx == packet[TkIndex(packet)] % 0x20
    ensures r.0.(tid := h.tid, y := h.y, keyIdx := h.keyIdx) == h
  {
    if h.t == 1 || h.k == 1 then
      var b := packet[idx];
      var withTid := if h.t == 1 then h.(tid := b / 0x40, y := Flag(b, 0x20)) else h;
      var withKeyIdx := if h.k == 1 then withTid.(keyIdx := b % 0x20) else withTid;
      (withKeyIdx, idx + 1)
    else
      (h, idx)
  }

  /**
   * Walks the descriptor the way the transport does, with a cursor that
   * advances past each optional field, and fails when no payload byte is
   * left after it.
   */
  function ParseDescriptor(packet: seq<U8>): (r: Option<Descriptor>)
    ensures r.Some? <==> |packet| >= 4 && DescriptorLen(packet) < |packet|
    ensures r.Some? ==> r.value.payloadIndex == DescriptorLen(packet) < |packet|
    ensures r.Some? ==>
      var h := r.value.header;
      && h.x == Bit(ExtBit(packet))
      && h.n == Bit(packet[0] % 0x40 >= 0x20)
      && h.s == Bit(packet[0] % 0x20 >= 0x10)
      && h.pid == packet[0] % 8
      && h.i == Bit(PicIdBit(packet))
      && h.l == Bit(Tl0Bit(packet))
      && h.t == Bit(TidBit(packet))
      && h.k == Bit(KeyIdxBit(packet))
      && (PicIdBit(packet) ==> h.pictureId == PictureIdAt(packet))
      && (Tl0Bit(packet) ==> h.tl0PicIdx == packet[Tl0Index(packet)])
      && (TidBit(packet) ==> h.tid == packet[TkIndex(packet)] / 0x40)
      && (TidBit(packet) ==> (h.y == 1 <==> packet[TkIndex(packet)] % 0x40 >= 0x20))
      && (KeyIdxBit(packet) ==> h.keyIdx == packet[TkIndex(packet)] % 0x20)
  {
    if |packet| < 4 then None
    else
      var (h1, idx1) := ReadControl(packet);
      var (h2, idx2) := ReadPictureId(packet, h1, idx1);
      if idx2 >= |packet| then None
      else
        var (h3, idx3) := ReadTl0PicIdx(packet, h2, idx2);
        if idx3 >= |packet| then None
        else
          var (h4, idx4) := ReadTidKeyIdx(packet, h3, idx3);
          if idx4 >= |packet| then None
          else Some(Descriptor(h4, idx4))
  }

  /**
   * Parses an RTP payload carrying VP8. `key` marks the first packet of a
   * key frame: start of partition 0 and a clear P bit in the VP8 payload
   * header (section 4.3 of RFC 7741). Layer information is reported only
   * when the packet carries a TID.
   */
  function ParseRtp<R>(packet: seq<U8>, rid: Option<U8>, rotation: Option<R>): (r: Option<MediaMeta<R>>)
    ensures |packet| < 4 ==> r.None?
    ensures r.Some? <==> |packet| >= 4 && DescriptorLen(packet) < |packet|
    ensures r.Some? ==> r.value.rotation == rotation
    ensures r.Some? ==>
      (r.value.key <==> packet[0] % 0x20 >= 0x10 && packet[0] % 8 == 0 && packet[DescriptorLen(packet)] % 2 == 0)
    ensures r.Some? ==> (r.value.sim.Some? <==> TidBit(packet))
    ensures r.Some? && r.value.sim.Some? ==>
      var sim := r.value.sim.value;
      var tk := packet[TkIndex(packet)];
      && sim.spatial == rid.GetOr(0)
      && sim.temporal == tk / 0x40
      && sim.temporal <= 3
      && (sim.layerSync <==> tk % 0x40 >= 0x20)
      && (sim.pictureId.Some? <==> PicIdBit(packet))
      && (sim.pictureId.Some? ==> sim.pictureId.value == PictureIdAt(packet))
      && (sim.tl0PicIdx.Some? <==> Tl0Bit(packet))
      && (sim.tl0PicIdx.Some? ==> sim.tl0PicIdx.value == packet[Tl0Index(packet)])
  {
    match ParseDescriptor(packet)
    case None => None
    case Some(Descriptor(h, payloadIndex)) =>
      var isKey := h.s != 0 && h.pid == 0 && packet[payloadIndex] % 2 == 0;
      if h.t == 1 then
        Some(Vp8(isKey, Some(Vp8Sim(
          rid.GetOr(0),
          h.tid,
          if h.i != 0 then Some(h.pictureId) else None,
          if h.l != 0 then Some(h.tl0PicIdx) else None,
          h.y != 0)), rotation))
      else
        Some(Vp8(isKey, None, rotation))
  }

  /** The descriptor bytes the rewriter touches or inspects are all there. */
  predicate Rewritable(p: seq<U8>) {
    && |p| >= 1
    && (ExtBit(p) ==> |p| >= 2)
    && (PicIdBit(p) ==> |p| >= 3)
    && (LongPicId(p) ==> |p| >= 4)
    && (Tl0Bit(p) ==> Tl0Index(p) < |p|)
  }

  /** The bytes the rewriter may change: PictureID and TL0PICIDX. */
  predicate Rewritten(p: seq<U8>, j: int) {
    || (PicIdBit(p) && 2 <= j < 2 + PicIdLen(p))
    || (Tl0Bit(p) && j == Tl0Index(p))
  }

  /** `0x80 | x`: the byte with its top bit set. */
  function SetTop(x: U8): U8 {
    if x >= 0x80 then x else x + 0x80
  }

  /** The two bytes written for a 15-bit PictureID keep M set and read back as its low 15 bits. */
  lemma LongPictureIdBytes(pictureId: U16)
    ensures SetTop(pictureId / 0x100) >= 0x80
    ensures Join(SetTop(pictureId / 0x100), pictureId % 0x100) == pictureId % 0x8000
  {
  }

  /** Two payloads that agree on the bytes carrying X, I/L/T/K and M have the same layout. */
  lemma SameLayout(p: seq<U8>, q: seq<U8>)
    requires |p| == |q| >= 1
    requires p[0] == q[0]
    requires |p| > 1 ==> p[1] == q[1]
    requires PicIdBit(p) && |p| > 2 ==> (p[2] >= 0x80 <==> q[2] >= 0x80)
    ensures ExtBit(p) == ExtBit(q) && PicIdBit(p) == PicIdBit(q) && LongPicId(p) == LongPicId(q)
    ensures Tl0Bit(p) == Tl0Bit(q) && TidBit(p) == TidBit(q) && KeyIdxBit(p) == KeyIdxBit(q)
    ensures Tl0Index(p) == Tl0Index(q) && TkIndex(p) == TkIndex(q) && DescriptorLen(p) == DescriptorLen(q)
    ensures Rewritable(p) == Rewritable(q)
  {
  }

  /** The two-byte PictureID form: M stays set, the low 15 bits of `pictureId` follow it. */
  function WriteLongPictureId(payload: seq<U8>, pictureId: U16): (r: seq<U8>)
    requires |payload| >= 4
    ensures |r| == |payload|
    ensures forall j :: 0 <= j < |payload| && !(2 <= j < 4) ==> r[j] == payload[j]
    ensures r[2] >= 0x80
    ensures Join(r[2], r[3]) == pictureId % 0x8000
  {
    LongPictureIdBytes(pictureId);
    payload[2 := SetTop(pictureId / 0x100)][3 := pictureId % 0x100]
  }

  /** The one-byte PictureID form: M stays clear, the low 7 bits of `pictureId` fill the byte. */
  function WriteShortPictureId(payload: seq<U8>, pictureId: U16): (r: seq<U8>)
    requires |payload| >= 3
    ensures |r| == |payload|
    ensures forall j :: 0 <= j < |payload| && j != 2 ==> r[j] == payload[j]
    ensures r[2] < 0x80
    ensures r[2] == pictureId % 0x80
  {
    payload[2 := pictureId % 0x100 % 0x80]
  }

  /**
   * First step of the rewriter: PictureID, in the width its M bit announces.
   * Returns the new payload and the cursor after PictureID.
   */
  function RewritePictureId(payload: seq<U8>, idx: nat, i: U8, pictureId: U16): (r: (seq<U8>, nat))
    requires Rewritable(payload)
    requires idx == (if ExtBit(payload) then 2 else 1)
    requires i == Bit(PicIdBit(payload))
    ensures r.1 == Tl0Index(payload)
    ensures |r.0| == |payload|
    ensures forall j :: 0 <= j < |payload| && !(PicIdBit(payload) && 2 <= j < 2 + PicIdLen(payload)) ==> r.0[j] == payload[j]
    ensures PicIdBit(payload) ==> (r.0[2] >= 0x80 <==> payload[2] >= 0x80)
    ensures LongPicId(payload) ==> Join(r.0[2], r.0[3]) == pictureId % 0x8000
    ensures PicIdBit(payload) && !LongPicId(payload) ==> r.0[2] == pictureId % 0x80
  {
    if i == 1 then
      if Flag(payload[idx], 0x80) > 0 then
        (WriteLongPictureId(payload, pictureId), idx + 2)
      else
        (WriteShortPictureId(payload, pictureId), idx + 1)
    else
      (payload, idx)
  }

  /** Second step of the rewriter: TL0PICIDX at the cursor, when L is set. */
  function RewriteTl0PicIdx(payload: seq<U8>, idx: nat, l: U8, tl0PicIdx: U8): (r: seq<U8>)
    requires Rewritable(payload)
    requires idx == Tl0Index(payload)
    requires l == Bit(Tl0Bit(payload))
    ensures |r| == |payload|
    ensures forall j :: 0 <= j < |payload| && !(Tl0Bit(payload) && j == Tl0Index(payload)) ==> r[j] == payload[j]
    ensures Tl0Bit(payload) ==> r[Tl0Index(payload)] == tl0PicIdx
  {
    if l == 1 then payload[idx := tl0PicIdx] else payload
  }

  /** The rewriter's look at X, I and L, and the cursor after the extension byte. */
  function RewriteFlags(payload: seq<U8>): (r: (U8, U8, nat))
    requires Rewritable(payload)
    ensures r.0 == Bit(PicIdBit(payload)) && r.1 == Bit(Tl0Bit(payload))
    ensures r.2 == if ExtBit(payload) then 2 else 1
  {
    var b := payload[0];
    if Flag(b, 0x80) == 1 then
      var e := payload[1];
      (Flag(e, 0x80), Flag(e, 0x40), 2)
    else
      (0, 0, 1)
  }

  /** The PictureID bytes written for `pictureId` read back as its low 15 or 7 bits. */
  lemma PictureIdReadBack(payload: seq<U8>, r: seq<U8>, pictureId: U16)
    requires Rewritable(payload) && PicIdBit(payload)
    requires |r| == |payload| && r[0] == payload[0] && r[1] == payload[1]
    requires r[2] >= 0x80 <==> payload[2] >= 0x80
    requires LongPicId(payload) ==> Join(r[2], r[3]) == pictureId % 0x8000
    requires !LongPicId(payload) ==> r[2] == pictureId % 0x80
    ensures PicIdBit(r) && LongPicId(r) == LongPicId(payload)
    ensures PictureIdAt(r) == Truncated(pictureId, LongPicId(payload))
  {
    SameLayout(payload, r);
  }

  /**
   * Overwrites PictureID (keeping its one- or two-byte width) and TL0PICIDX
   * with the values of `sim`, zero standing in for an absent value.
   */
  function RewriteRtp(payload: seq<U8>, sim: Vp8Sim): (r: seq<U8>)
    requires Rewritable(payload)
    ensures |r| == |payload|
    ensures forall j :: 0 <= j < |payload| && !Rewritten(payload, j) ==> r[j] == payload[j]
    ensures ExtBit(r) == ExtBit(payload) && PicIdBit(r) == PicIdBit(payload) && LongPicId(r) == LongPicId(payload)
    ensures Tl0Bit(r) == Tl0Bit(payload) && TidBit(r) == TidBit(payload) && KeyIdxBit(r) == KeyIdxBit(payload)
    ensures PicIdBit(payload) ==> PictureIdAt(r) == Truncated(sim.pictureId.GetOr(0), LongPicId(payload))
    ensures Tl0Bit(payload) ==> r[Tl0Index(payload)] == sim.tl0PicIdx.GetOr(0)
  {
    var flags := RewriteFlags(payload);
    var step := RewritePictureId(payload, flags.2, flags.0, sim.pictureId.GetOr(0));
    var withPictureId := step.0;
    SameLayout(payload, withPictureId);
    var r := RewriteTl0PicIdx(withPictureId, step.1, flags.1, sim.tl0PicIdx.GetOr(0));
    SameLayout(payload, r);
    if PicIdBit(payload) then
      PictureIdReadBack(payload, r, sim.pictureId.GetOr(0));
      r
    else
      r
  }

  /** A packet the parser accepts carries every byte the rewriter touches. */
  lemma ParsedIsRewritable<R>(packet: seq<U8>, rid: Option<U8>, rotation: Option<R>)
    requires ParseRtp(packet, rid, rotation).Some?
    ensures Rewritable(packet)
    ensures forall j :: Rewritten(packet, j) ==> 2 <= j < DescriptorLen(packet)
  {
  }

  /**
   * Rewriting then parsing again: the packet still parses, PictureID and
   * TL0PICIDX now carry the new values (PictureID cut to the width the
   * packet has room for), and key-frame flag, temporal layer and layer
   * sync are those of the original packet.
   */
  lemma RewriteRoundTrip<R>(packet: seq<U8>, sim: Vp8Sim, rid: Option<U8>, rotation: Option<R>)
    requires ParseRtp(packet, rid, rotation).Some?
    ensures Rewritable(packet)
    ensures
      var before := ParseRtp(packet, rid, rotation).value;
      var after := ParseRtp(RewriteRtp(packet, sim), rid, rotation);
      && after.Some?
      && after.value.key == before.key
      && after.value.rotation == rotation
      && after.value.sim.Some? == before.sim.Some?
      && (before.sim.Some? ==> after.value.sim.value == before.sim.value.(
            pictureId := if PicIdBit(packet) then Some(Truncated(sim.pictureId.GetOr(0), LongPicId(packet))) else None,
            tl0PicIdx := if Tl0Bit(packet) then Some(sim.tl0PicIdx.GetOr(0)) else None))
  {
    ParsedIsRewritable(packet, rid, rotation);
    var r := RewriteRtp(packet, sim);
    assert DescriptorLen(r) == DescriptorLen(packet);
    assert r[0] == packet[0];
    assert r[DescriptorLen(packet)] == packet[DescriptorLen(packet)];
    if TidBit(packet) {
      assert !Rewritten(packet, TkIndex(packet));
      assert r[TkIndex(packet)] == packet[TkIndex(packet)];
    }
  }
}
