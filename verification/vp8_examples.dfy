/**
 * Concrete descriptors: a key-frame packet carrying every optional field, a
 * packet without layer information, and the rewrite of the first one.
 */
module Vp8Examples {
  import opened Wrappers
  import opened Ints
  import opened Vp8

  /**
   * X, S and PID 0; I, L, T and K; a 15-bit PictureID 0x1234; TL0PICIDX 5;
   * TID 1 with Y set; then a payload header with a clear P bit.
   */
  function FullPacket(): seq<U8> {
    [0x90, 0xF0, 0x92, 0x34, 0x05, 0x60, 0x00]
  }

  lemma FullPacketParses()
    ensures ParseRtp<int>(FullPacket(), Some(2), None)
      == Some(Vp8(true, Some(Vp8Sim(2, 1, Some(0x1234), Some(5), true)), None))
  {
  }

  /** Without T the packet carries no layer information, even with I and L set. */
  lemma NoTidNoSim()
    ensures ParseRtp<int>([0x80, 0xC0, 0x05, 0x07, 0x01], None, None) == Some(Vp8(false, None, None))
  {
  }

  /** A descriptor that uses up the whole packet leaves no payload byte and is refused. */
  lemma DescriptorWithoutPayload()
    ensures ParseRtp<int>([0x90, 0xF0, 0x92, 0x34, 0x05, 0x60], None, None).None?
  {
  }

  /** The rewrite keeps the two-byte width, so only the low 15 bits of 0xABCD survive. */
  lemma FullPacketRewrite()
    ensures RewriteRtp(FullPacket(), Vp8Sim(0, 0, Some(0xABCD), Some(9), false))
      == [0x90, 0xF0, 0xAB, 0xCD, 0x09, 0x60, 0x00]
    ensures ParseRtp<int>(RewriteRtp(FullPacket(), Vp8Sim(0, 0, Some(0xABCD), Some(9), false)), Some(2), None)
      == Some(Vp8(true, Some(Vp8Sim(2, 1, Some(0x2BCD), Some(9), true)), None))
  {
  }
}
