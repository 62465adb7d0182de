// The zigzag code ("Signed Integers" in the Protocol Buffers encoding guide), written with the
// wrapping 32-bit and 64-bit arithmetic of the program.

module Zigzag {

  datatype Width = W32 | W64

  /** One more than the largest unsigned integer of a width. */
  function Modulus(w: Width): (m: int)
    ensures m > 0
  {
    if w.W32? then 0x1_0000_0000 else 0x1_0000_0000_0000_0000
  }

  predicate IsUnsigned(u: int, w: Width) {
    0 <= u < Modulus(w)
  }

  predicate IsSigned(v: int, w: Width) {
    -(Modulus(w) / 2) <= v < Modulus(w) / 2
  }

  /** The unsigned integer an unsigned operation on `x` leaves. */
  function Wrap(x: int, w: Width): (u: nat)
    ensures IsUnsigned(u, w)
    ensures -Modulus(w) <= x < 0 ==> u == x + Modulus(w)
    ensures 0 <= x < Modulus(w) ==> u == x
    ensures Modulus(w) <= x < 2 * Modulus(w) ==> u == x - Modulus(w)
  {
    match w
    case W32 => x % 0x1_0000_0000
    case W64 => x % 0x1_0000_0000_0000_0000
  }

  /** The signed integer with the two's complement pattern `u`. */
  function Reinterpret(u: nat, w: Width): (v: int)
    requires IsUnsigned(u, w)
    ensures IsSigned(v, w)
  {
    if u < Modulus(w) / 2 then u else u - Modulus(w)
  }

  /** Signed negation: the smallest integer is its own negation. */
  function Negate(v: int, w: Width): (n: int)
    requires IsSigned(v, w)
    ensures IsSigned(n, w)
  {
    Reinterpret(Wrap(-v, w), w)
  }

  /** Exclusive or with a mask of equal bits: the identity or the complement. */
  function XorMask(u: nat, mask: nat, w: Width): (x: nat)
    requires IsUnsigned(u, w)
    requires mask == 0 || mask == Modulus(w) - 1
    ensures IsUnsigned(x, w)
  {
    if mask == 0 then u else Modulus(w) - 1 - u
  }

  /** The code of `v` is `2v`, or `-2v - 1` when `v` is negative, even for the smallest integer,
      whose negation overflows. */
  function EncodeZigzag(v: int, w: Width): (u: nat)
    requires IsSigned(v, w)
    ensures IsUnsigned(u, w)
    ensures u == if v < 0 then -2 * v - 1 else 2 * v
  {
    if v < 0 then
      Wrap(Wrap(Wrap(Negate(v, w), w) * 2, w) - 1, w)
    else
      Wrap(v * 2, w)
  }

  /** Even codes are the non-negative integers and odd codes the negative ones. */
  function DecodeZigzag(u: nat, w: Width): (v: int)
    requires IsUnsigned(u, w)
    ensures IsSigned(v, w)
    ensures v == if u % 2 == 0 then u / 2 else -(u / 2) - 1
  {
    Reinterpret(XorMask(u / 2, Wrap(-(u % 2), w), w), w)
  }

  /** Encoding and decoding are inverse bijections between the whole signed and unsigned ranges. */
  lemma ZigzagBijection(w: Width)
    ensures forall v :: IsSigned(v, w) ==> DecodeZigzag(EncodeZigzag(v, w), w) == v
    ensures forall u :: IsUnsigned(u, w) ==> EncodeZigzag(DecodeZigzag(u, w), w) == u
  {
    forall v | IsSigned(v, w) ensures DecodeZigzag(EncodeZigzag(v, w), w) == v {
      var u := EncodeZigzag(v, w);
      assert u / 2 == if v < 0 then -v - 1 else v;
    }
    forall u | IsUnsigned(u, w) ensures EncodeZigzag(DecodeZigzag(u, w), w) == u {
      assert u == 2 * (u / 2) + u % 2;
    }
  }

  /** On 32-bit patterns the bit operations of the program are the arithmetic used here. */
  lemma BitForms32(u: bv32)
    ensures (u & 0x7f) | 0x80 == (u % 0x80) + 0x80 && u >> 7 == u / 0x80
    ensures u ^ 0xffff_ffff == 0xffff_ffff - u && u ^ 0 == u
    ensures u >> 1 == u / 2 && (u & 1) == u % 2
  {
  }

  lemma BitForms64(u: bv64)
    ensures (u & 0x7f) | 0x80 == (u % 0x80) + 0x80 && u >> 7 == u / 0x80
    ensures u ^ 0xffff_ffff_ffff_ffff == 0xffff_ffff_ffff_ffff - u && u ^ 0 == u
    ensures u >> 1 == u / 2 && (u & 1) == u % 2
  {
  }
}
