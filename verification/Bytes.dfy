// Bytes, fixed-width integers and the result of a read.
// The host is little-endian: fixed-width integers are copied to and from memory unchanged.

module Bytes {

  type byte = x: int | 0 <= x < 256

  /** Why a read did not return a value. */
  datatype Error =
    | OutOfRange  // the exception "not enough len"
    | NullCursor  // the cursor pointer was null and was dereferenced

  datatype Result<+T> = Success(value: T) | Failure(error: Error)

  /** What a decoder returns, and the readable bytes it leaves behind. */
  datatype Parsed<+T> = Parsed(result: Result<T>, rest: seq<byte>)

  function Ok<T>(value: T, rest: seq<byte>): Parsed<T> {
    Parsed(Success(value), rest)
  }

  function Stop<T>(error: Error, rest: seq<byte>): Parsed<T> {
    Parsed(Failure(error), rest)
  }

  /** The value of one byte more, for numbers of `n` bytes. */
  function Pow256(n: nat): (p: nat)
    ensures p > 0
  {
    if n == 0 then 1 else 256 * Pow256(n - 1)
  }

  /** The `n` low bytes of `v`, least significant first. */
  function ToLittleEndian(n: nat, v: nat): (bytes: seq<byte>)
    ensures |bytes| == n
  {
    if n == 0 then [] else [v % 256] + ToLittleEndian(n - 1, v / 256)
  }

  function FromLittleEndian(bytes: seq<byte>): (v: nat)
    ensures v < Pow256(|bytes|)
  {
    if bytes == [] then 0 else bytes[0] + 256 * FromLittleEndian(bytes[1..])
  }

  /** Byte `i` of a number is its digit at that place. */
  lemma {:induction false} LittleEndianDigit(n: nat, v: nat, i: nat)
    requires i < n
    ensures ToLittleEndian(n, v)[i] == (v / Pow256(i)) % 256
  {
    if i > 0 {
      LittleEndianDigit(n - 1, v / 256, i - 1);
      DivideTwice(v, Pow256(i - 1));
    } else {
      assert v / 1 == v;
    }
  }

  lemma DivideTwice(v: nat, p: nat)
    requires p > 0
    ensures v / 256 / p == v / (256 * p)
  {
    var q, r := v / 256, v % 256;
    var low := r + 256 * (q % p);
    assert q == p * (q / p) + q % p;
    assert 256 * (p * (q / p)) == (256 * p) * (q / p);
    assert 256 * (q % p) + 256 <= 256 * p by { MulMonotone(256, q % p, p); }
    Remainder(v, 256 * p, q / p, low);
  }

  /** Reading back a fixed-width integer returns its low bytes, hence the integer when it fits. */
  lemma {:induction false} LittleEndianRoundTrip(n: nat, v: nat)
    ensures v < Pow256(n) ==> FromLittleEndian(ToLittleEndian(n, v)) == v
    ensures FromLittleEndian(ToLittleEndian(n, v)) % Pow256(n) == v % Pow256(n)
  {
    if n == 0 {
      assert v % 1 == 0;
    } else {
      LittleEndianRoundTrip(n - 1, v / 256);
      var bytes := ToLittleEndian(n, v);
      var p := Pow256(n - 1);
      assert bytes[1..] == ToLittleEndian(n - 1, v / 256);
      var r := FromLittleEndian(bytes[1..]);
      assert r % p == (v / 256) % p;
      assert r < p;
      assert r == (v / 256) % p by { Small(r, p); }
      ModTimes(v, p);
      Small(v % 256 + 256 * r, 256 * p);
    }
  }

  lemma Small(x: nat, m: nat)
    requires x < m
    ensures x % m == x
  {
  }

  lemma ModTimes(v: nat, p: nat)
    requires p > 0
    ensures v % (256 * p) == v % 256 + 256 * ((v / 256) % p)
  {
    var q := v / 256;
    var low := v % 256 + 256 * (q % p);
    assert v == 256 * q + v % 256;
    assert q == p * (q / p) + q % p;
    assert v == (256 * p) * (q / p) + low by {
      assert 256 * q == 256 * (p * (q / p)) + 256 * (q % p);
      assert 256 * (p * (q / p)) == (256 * p) * (q / p);
    }
    assert 0 <= low < 256 * p;
    Remainder(v, 256 * p, q / p, low);
  }

  lemma {:induction false} MulMonotone(m: nat, a: nat, b: nat)
    requires a <= b
    ensures m * a <= m * b
    ensures a < b ==> m * a + m <= m * b
  {
    if a < b {
      assert m * b == m * a + m * (b - a);
      assert m * (b - a) >= m by {
        assert m * (b - a) == m + m * (b - a - 1);
      }
    }
  }

  lemma Remainder(v: nat, m: nat, q: nat, r: nat)
    requires 0 < m && r < m && v == m * q + r
    ensures v % m == r && v / m == q
  {
    var q' := v / m;
    if q < q' {
      MulMonotone(m, q, q');
      assert false;
    } else if q' < q {
      MulMonotone(m, q', q);
      assert false;
    }
  }

  /** Two byte strings with the same little-endian value are equal when they are equally long. */
  lemma {:induction false} FromLittleEndianInjective(a: seq<byte>, b: seq<byte>)
    requires |a| == |b|
    requires FromLittleEndian(a) == FromLittleEndian(b)
    ensures a == b
  {
    if a != [] {
      FromLittleEndianInjective(a[1..], b[1..]);
      assert a == [a[0]] + a[1..] && b == [b[0]] + b[1..];
    }
  }

  /** Half the numbers of `n` bytes. */
  function HalfRange(n: nat): (h: nat)
    requires n > 0
    ensures Pow256(n) == 2 * h
  {
    128 * Pow256(n - 1)
  }

  /** Two's complement: the unsigned pattern of a signed number of `n` bytes, and back. */
  function ToUnsigned(n: nat, v: int): (u: nat)
    requires n > 0
    requires 0 - HalfRange(n) <= v < HalfRange(n)
    ensures u < Pow256(n)
  {
    if v < 0 then v + Pow256(n) else v
  }

  function ToSigned(n: nat, u: nat): (v: int)
    requires n > 0
    requires u < Pow256(n)
    ensures 0 - HalfRange(n) <= v < HalfRange(n)
  {
    if u < HalfRange(n) then u else u - Pow256(n)
  }

  /** The unsigned and the signed reading of `n` bytes are inverse to each other. */
  lemma SignedRoundTrip(n: nat, v: int)
    requires n > 0
    requires 0 - HalfRange(n) <= v < HalfRange(n)
    ensures ToSigned(n, ToUnsigned(n, v)) == v
  {
  }
}
