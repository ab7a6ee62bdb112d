module ByteBits {
  /** A byte value survives the trip through `bv8`. */
  lemma ByteAsBits(u: int)
    requires 0 <= u < 256
    ensures (u as bv8) as int == u
  {
  }
}
