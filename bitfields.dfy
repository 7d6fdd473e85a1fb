/**
 * The status-byte bit field of the DAB+ radio driver: a byte whose bits are
 * tested, set and cleared by position. A position of 8 or more shifts the
 * single-bit mask out of the byte, so it names no bit.
 */
module BitFields {
  /** A bit position (Go's BitPos, a uint8). */
  type BitPos = bv8

  /** Named positions in the first status byte. */
  const ClearToSend: BitPos := 7
  const CmdError: BitPos := 6
  const LinkChange: BitPos := 5
  const ServiceChange: BitPos := 4
  const TuneDone: BitPos := 0
  /** Named position in the second status byte. */
  const EventChange: BitPos := 5

  /** `0x01 << bp` in uint8 arithmetic: one bit below 8, nothing from 8 on. */
  function Mask(bp: BitPos): (m: bv8)
  {
    if bp < 8 then (1 as bv8) << bp else 0
  }

  /** Bit `bp` of `bf`, counting from the least significant bit; no bit from 8 on. */
  predicate Bit(bf: bv8, bp: BitPos)
  {
    bp < 8 && (bf >> bp) & 1 == 1
  }

  /** BitField.Has: the masked byte is not zero, which tests exactly the bit at `bp`, and nothing from 8 on. */
  predicate Has(bf: bv8, bp: BitPos): (b: bool)
    ensures b <==> Bit(bf, bp)
  {
    if bp < 8 then ShiftedBit(bf, bp); bf & Mask(bp) != 0
    else bf & Mask(bp) != 0
  }

  lemma ShiftedBit(bf: bv8, k: bv8)
    requires k < 8
    ensures bf & ((1 as bv8) << k) != 0 <==> (bf >> k) & 1 == 1
  {
  }

  /** BitField.Set: the byte or-ed with the mask. */
  function With(bf: bv8, bp: BitPos): (r: bv8)
  {
    bf | Mask(bp)
  }

  /** BitField.Clear: the byte and-not-ed with the mask. */
  function Without(bf: bv8, bp: BitPos): (r: bv8)
  {
    bf & !Mask(bp)
  }

  /** Setting a bit makes it present, leaves every other bit as it was, and is idempotent. */
  lemma SetBit(bf: bv8, bp: BitPos, q: BitPos)
    requires bp < 8
    ensures Has(With(bf, bp), bp)
    ensures q != bp ==> (Has(With(bf, bp), q) <==> Has(bf, q))
    ensures With(With(bf, bp), bp) == With(bf, bp)
  {
    MaskIdempotent(bf, Mask(bp));
    if q < 8 && q != bp {
      DistinctBits(bf, bp, q);
    }
  }

  lemma DistinctBits(bf: bv8, p: bv8, q: bv8)
    requires p < 8 && q < 8 && p != q
    ensures (bf | ((1 as bv8) << p)) & ((1 as bv8) << q) == bf & ((1 as bv8) << q)
    ensures (bf & !((1 as bv8) << p)) & ((1 as bv8) << q) == bf & ((1 as bv8) << q)
  {
  }

  /** Clearing a bit makes it absent, leaves every other bit as it was, and is idempotent. */
  lemma ClearBit(bf: bv8, bp: BitPos, q: BitPos)
    requires bp < 8
    ensures !Has(Without(bf, bp), bp)
    ensures q != bp ==> (Has(Without(bf, bp), q) <==> Has(bf, q))
    ensures Without(Without(bf, bp), bp) == Without(bf, bp)
  {
    MaskIdempotent(bf, Mask(bp));
    if q < 8 && q != bp {
      DistinctBits(bf, bp, q);
    }
  }

  /** Or-ing in and and-not-ing out the same mask twice is doing it once; the mask is gone after the latter. */
  lemma MaskIdempotent(bf: bv8, m: bv8)
    ensures (bf | m) | m == bf | m && (bf | m) & m == m
    ensures (bf & !m) & !m == bf & !m && (bf & !m) & m == 0
  {
  }

  /** From position 8 on, Has is false and Set and Clear change nothing. */
  lemma OutOfRange(bf: bv8, bp: BitPos)
    requires 8 <= bp
    ensures !Has(bf, bp) && With(bf, bp) == bf && Without(bf, bp) == bf
  {
  }

  /** Every named status position lies inside the byte. */
  lemma NamedPositionsInByte()
    ensures ClearToSend < 8 && CmdError < 8 && LinkChange < 8 && ServiceChange < 8 && TuneDone < 8 && EventChange < 8
  {
  }

  /** A bit field changed in place through a pointer receiver. */
  class BitField {
    var bits: bv8

    constructor (bits0: bv8)
      ensures bits == bits0
    {
      bits := bits0;
    }

    /** BitField.Set. */
    method Set(bp: BitPos)
      modifies this
      ensures bits == With(old(bits), bp)
    {
      bits := bits | Mask(bp);
    }

    /** BitField.Clear. */
    method Clear(bp: BitPos)
      modifies this
      ensures bits == Without(old(bits), bp)
    {
      bits := bits & !Mask(bp);
    }
  }
}
