/** Signed 16-bit words assembled from a high and a low register byte, as the
    motion sensor reports every orientation, acceleration and rate channel. */
module Word16 {
  import opened Bits

  /** A register value: what a one-byte I2C read returns. */
  type Byte = x: int | 0 <= x < 256

  /** A two's-complement 16-bit integer. */
  type Int16 = x: int | -32768 <= x <= 32767

  /** `h << 8 | l`: the unsigned word whose high byte is h and low byte is l.
      For a byte h the 32-bit shift `h << 8` cannot overflow and is h * 256;
      the low byte never overlaps the shifted high byte. */
  function Combine(h: Byte, l: Byte): (u: int)
    ensures u == h * 256 + l
    ensures 0 <= u <= 65535
  {
    assert Pow2(8) == 256;
    OrOfShiftedIsSum(h, l, 8);
    Or(h * 256, l)
  }

  /** Sign extension of an unsigned word: above 32767, subtract 65536. The
      result is the one 16-bit signed value congruent to u modulo 2^16, and
      it is negative exactly when bit 15 of u is set. */
  function SignExtend(u: int): (s: int)
    requires 0 <= u <= 65535
    ensures -32768 <= s <= 32767
    ensures s % 65536 == u
    ensures s < 0 <==> u >= 32768
  {
    if u > 32767 then u - 65536 else u
  }

  /** The signed value of the register pair (h, l). */
  function Decode(h: Byte, l: Byte): (v: Int16)
    ensures v % 65536 == h * 256 + l
  {
    SignExtend(Combine(h, l))
  }

  /** The register pair (high, low) that holds v in two's complement. */
  function Encode(v: Int16): (hl: (Byte, Byte))
    ensures hl.0 * 256 + hl.1 == v % 65536
    ensures hl.0 >= 128 <==> v < 0
  {
    var u := v % 65536;
    (u / 256, u % 256)
  }

  /** Decoding what Encode produced gives the value back: every Int16 is
      reachable from some register pair. */
  lemma DecodeEncode(v: Int16)
    ensures Decode(Encode(v).0, Encode(v).1) == v
  {
    var u := v % 65536;
    assert u == if v < 0 then v + 65536 else v;
    var (h, l) := Encode(v);
    assert h * 256 + l == u;
    assert Combine(h, l) == u;
  }

  /** Encoding the decoded value gives the register pair back: no two pairs
      decode to the same Int16, so Decode is a bijection onto Int16. */
  lemma EncodeDecode(h: Byte, l: Byte)
    ensures Encode(Decode(h, l)) == (h, l)
  {
  }
}
