// Unsigned LEB128 (section 7.6 of DWARF Debugging Information Format Version 5): groups of seven
// bits, least significant first, every byte but the last with its top bit set.

module Varint {
  import opened Bytes
  import opened Zigzag

  /** The bytes the encoder's loop emits for `value`. */
  function EncodeVarint(value: nat): (code: seq<byte>)
    ensures |code| > 0
  {
    if value < 0x80 then [value] else [value % 0x80 + 0x80] + EncodeVarint(value / 0x80)
  }

  /** How often the decoder's loop runs at most: the shift goes up by seven while below the width. */
  function Groups(w: Width): nat {
    if w.W32? then 5 else 10
  }

  function Pow128(k: nat): (p: nat)
    ensures p > 0
  {
    if k == 0 then 1 else 0x80 * Pow128(k - 1)
  }

  /** Group `k` shifted to its place; what leaves the width on the left is lost. */
  function ShiftGroup(group: nat, k: nat, w: Width): nat {
    (group * Pow128(k)) % Modulus(w)
  }

  /** The decoder's loop from iteration `k` on: the bits it still adds. The groups occupy disjoint
      bits, so joining them with "or" adds them (OrAdds32, Disjoint32, Shift32 and their 64-bit forms).
      Running out of iterations is not an error. */
  function DecodeGroups(bytes: seq<byte>, k: nat, w: Width): (p: Parsed<nat>)
    requires k <= Groups(w)
    ensures |p.rest| <= |bytes| && p.rest == bytes[|bytes| - |p.rest|..]
    decreases Groups(w) - k
  {
    if k == Groups(w) then Ok(0, bytes)
    else if bytes == [] then Stop(OutOfRange, bytes)
    else if bytes[0] < 0x80 then Ok(ShiftGroup(bytes[0], k, w), bytes[1..])
    else
      var p := DecodeGroups(bytes[1..], k + 1, w);
      if p.result.Failure? then p
      else Ok(ShiftGroup(bytes[0] - 0x80, k, w) + p.result.value, p.rest)
  }

  function DecodeVarint(bytes: seq<byte>, w: Width): Parsed<nat> {
    DecodeGroups(bytes, 0, w)
  }

  lemma VarintSuffix(bytes: seq<byte>, w: Width)
    ensures
      var rest := DecodeVarint(bytes, w).rest;
      |rest| <= |bytes| && rest == bytes[|bytes| - |rest|..]
  {
  }

  /** The decoder's result once its loop has added up `sum` and still has `p` to come. */
  function Plus(sum: nat, p: Parsed<nat>): Parsed<nat> {
    if p.result.Failure? then p else Ok(sum + p.result.value, p.rest)
  }

  lemma StartGroups(bytes: seq<byte>, w: Width)
    ensures DecodeVarint(bytes, w) == Plus(0, DecodeGroups(bytes, 0, w))
  {
  }

  /** One round of the decoder's loop. */
  lemma GroupStep(bytes: seq<byte>, k: nat, w: Width, sum: nat)
    requires k < Groups(w)
    ensures
      var p := Plus(sum, DecodeGroups(bytes, k, w));
      if bytes == [] then p == Stop(OutOfRange, bytes)
      else if bytes[0] < 0x80 then p == Ok(sum + ShiftGroup(bytes[0], k, w), bytes[1..])
      else p == Plus(sum + ShiftGroup(bytes[0] - 0x80, k, w), DecodeGroups(bytes[1..], k + 1, w))
  {
    hide ShiftGroup;
  }

  lemma OutOfGroups(bytes: seq<byte>, w: Width, sum: nat)
    ensures Plus(sum, DecodeGroups(bytes, Groups(w), w)) == Ok(sum, bytes)
  {
  }

  lemma Pow128Values()
    ensures Pow128(1) == 0x80 && Pow128(2) == 0x4000 && Pow128(3) == 0x20_0000
    ensures Pow128(4) == 0x1000_0000 && Pow128(5) == 0x8_0000_0000
    ensures Pow128(6) == 0x400_0000_0000 && Pow128(7) == 0x2_0000_0000_0000
    ensures Pow128(8) == 0x100_0000_0000_0000 && Pow128(9) == 0x8000_0000_0000_0000
    ensures Pow128(10) == 0x40_0000_0000_0000_0000
  {
    assert Pow128(1) == 0x80 * Pow128(0);
    assert Pow128(3) == 0x80 * Pow128(2);
    assert Pow128(5) == 0x80 * Pow128(4);
    assert Pow128(7) == 0x80 * Pow128(6);
    assert Pow128(9) == 0x80 * Pow128(8);
  }

  lemma {:induction false} Pow128Monotone(j: nat, k: nat)
    requires j <= k
    ensures Pow128(j) <= Pow128(k)
  {
    if j < k {
      Pow128Monotone(j, k - 1);
    }
  }

  /** How often the place value of the last group fits the width. */
  function LastGroup(w: Width): (n: nat)
    ensures n > 0
    ensures Modulus(w) == n * Pow128(Groups(w) - 1)
  {
    Pow128Values();
    if w.W32? then 16 else 2
  }

  /** Only the last group loses bits. */
  lemma ShiftGroupValue(group: nat, k: nat, w: Width)
    requires group < 0x80 && k < Groups(w)
    ensures k + 1 < Groups(w) ==> ShiftGroup(group, k, w) == group * Pow128(k)
    ensures k + 1 == Groups(w) ==> ShiftGroup(group, k, w) == (group % LastGroup(w)) * Pow128(k)
  {
    var place, n := Pow128(k), LastGroup(w);
    if k + 1 < Groups(w) {
      MulMonotone(place, group, 0x80);
      Pow128Monotone(k + 1, Groups(w) - 1);
      MulMonotone(Pow128(Groups(w) - 1), 1, n);
      Small(group * place, Modulus(w));
    } else {
      var q, r := group / n, group % n;
      assert group == n * q + r;
      assert group * place == (n * place) * q + r * place;
      MulMonotone(place, r, n);
      Remainder(group * place, n * place, q, r * place);
    }
  }

  lemma ShiftGroupBound(group: nat, k: nat, w: Width)
    requires group < 0x80 && k < Groups(w)
    ensures k + 1 < Groups(w) ==>
              ShiftGroup(group, k, w) + Pow128(k) <= Pow128(k + 1) <= Modulus(w)
    ensures k + 1 == Groups(w) ==> ShiftGroup(group, k, w) + Pow128(k) <= Modulus(w)
  {
    ShiftGroupValue(group, k, w);
    var place, n := Pow128(k), LastGroup(w);
    if k + 1 < Groups(w) {
      MulMonotone(place, group, 0x7f);
      Pow128Monotone(k + 1, Groups(w) - 1);
      MulMonotone(Pow128(Groups(w) - 1), 1, n);
    } else {
      MulMonotone(place, group % n, n - 1);
      assert n * place == (n - 1) * place + place;
    }
  }

  /** Joining bit patterns that share no bits by "or" adds them, without wrapping around. */
  lemma OrAdds32(sum: bv32, part: bv32)
    requires sum & part == 0
    ensures sum | part == sum + part >= sum
  {
  }

  /** The groups joined before the next one are below its place, and share no bits with it. */
  lemma Disjoint32(sum: bv32, g: bv32)
    requires g < 0x80
    ensures sum < 0x80 ==> sum & (g << 7) == 0
    ensures sum < 0x4000 ==> sum & (g << 14) == 0
    ensures sum < 0x20_0000 ==> sum & (g << 21) == 0
    ensures sum < 0x1000_0000 ==> sum & (g << 28) == 0
  {
  }

  /** Shifting a group to its place multiplies it; only the last one loses bits. */
  lemma Shift32(g: bv32)
    requires g < 0x80
    ensures g << 7 == g * 0x80 < 0x4000
    ensures g << 14 == g * 0x4000 < 0x20_0000
    ensures g << 21 == g * 0x20_0000 < 0x1000_0000
    ensures g << 28 == (g % 16) * 0x1000_0000
  {
  }

  lemma OrAdds64(sum: bv64, part: bv64)
    requires sum & part == 0
    ensures sum | part == sum + part >= sum
  {
  }

  lemma Disjoint64(sum: bv64, g: bv64)
    requires g < 0x80
    ensures sum < 0x80 ==> sum & (g << 7) == 0
    ensures sum < 0x4000 ==> sum & (g << 14) == 0
    ensures sum < 0x20_0000 ==> sum & (g << 21) == 0
    ensures sum < 0x1000_0000 ==> sum & (g << 28) == 0
    ensures sum < 0x8_0000_0000 ==> sum & (g << 35) == 0
    ensures sum < 0x400_0000_0000 ==> sum & (g << 42) == 0
    ensures sum < 0x2_0000_0000_0000 ==> sum & (g << 49) == 0
    ensures sum < 0x100_0000_0000_0000 ==> sum & (g << 56) == 0
    ensures sum < 0x8000_0000_0000_0000 ==> sum & (g << 63) == 0
  {
  }

  lemma Shift64(g: bv64)
    requires g < 0x80
    ensures g << 7 == g * 0x80 < 0x4000
    ensures g << 14 == g * 0x4000 < 0x20_0000
    ensures g << 21 == g * 0x20_0000 < 0x1000_0000
    ensures g << 28 == g * 0x1000_0000 < 0x8_0000_0000
    ensures g << 35 == g * 0x8_0000_0000 < 0x400_0000_0000
    ensures g << 42 == g * 0x400_0000_0000 < 0x2_0000_0000_0000
    ensures g << 49 == g * 0x2_0000_0000_0000 < 0x100_0000_0000_0000
    ensures g << 56 == g * 0x100_0000_0000_0000 < 0x8000_0000_0000_0000
    ensures g << 63 == (g % 2) * 0x8000_0000_0000_0000
  {
  }

  /** What the decoder's loop adds from iteration `k` on leaves room for one more bit at the lowest
      place of group `k`: the sum never carries out of the width. */
  lemma {:induction false} DecodeGroupsInRange(bytes: seq<byte>, k: nat, w: Width)
    requires k <= Groups(w)
    ensures
      var r := DecodeGroups(bytes, k, w).result;
      r.Success? ==> if k < Groups(w) then r.value + Pow128(k) <= Modulus(w) else r.value == 0
    decreases Groups(w) - k
  {
    if k < Groups(w) && bytes != [] {
      DecodeGroupsInRange(bytes[1..], k + 1, w);
      ShiftGroupBound(if bytes[0] < 0x80 then bytes[0] else bytes[0] - 0x80, k, w);
    }
  }

  /** Whatever it reads, the decoder returns a number of its width. */
  lemma DecodeVarintInRange(bytes: seq<byte>, w: Width)
    ensures
      var r := DecodeVarint(bytes, w).result;
      r.Success? ==> IsUnsigned(r.value, w)
  {
    DecodeGroupsInRange(bytes, 0, w);
  }

  /** Decoding an encoding returns the number and stops exactly behind it. */
  lemma VarintRoundTrip(value: nat, rest: seq<byte>, w: Width)
    requires IsUnsigned(value, w)
    ensures DecodeVarint(EncodeVarint(value) + rest, w) == Ok(value, rest)
  {
    GroupsRoundTrip(value, rest, 0, w);
  }

  function Scaled(value: nat, k: nat): nat {
    value * Pow128(k)
  }

  lemma {:induction false} GroupsRoundTrip(value: nat, rest: seq<byte>, k: nat, w: Width)
    requires Scaled(value, k) < Modulus(w)
    requires k < Groups(w)
    ensures DecodeGroups(EncodeVarint(value) + rest, k, w) == Ok(Scaled(value, k), rest)
    decreases value
  {
    hide ShiftGroup, Scaled, Modulus, DecodeGroups, EncodeVarint;
    EncodeStep(value, rest);
    if value < 0x80 {
      ShiftGroupFits(value, k, w);
      GroupStep(EncodeVarint(value) + rest, k, w, 0);
      PlusNothing(DecodeGroups(EncodeVarint(value) + rest, k, w));
    } else {
      SplitPlace(value / 0x80, value % 0x80, k);
      NextGroup(value / 0x80, k, w);
      GroupsRoundTrip(value / 0x80, rest, k + 1, w);
      ShiftGroupFits(value % 0x80, k, w);
      DecodeOne(EncodeVarint(value) + rest, k, w);
    }
  }

  lemma EncodeStep(value: nat, rest: seq<byte>)
    ensures
      var bytes := EncodeVarint(value) + rest;
      if value < 0x80 then bytes[0] == value && bytes[1..] == rest
      else bytes[0] == value % 0x80 + 0x80 && bytes[1..] == EncodeVarint(value / 0x80) + rest
  {
  }

  lemma DecodeOne(bytes: seq<byte>, k: nat, w: Width)
    requires k < Groups(w) && bytes != [] && bytes[0] >= 0x80
    requires DecodeGroups(bytes[1..], k + 1, w).result.Success?
    ensures
      var p := DecodeGroups(bytes[1..], k + 1, w);
      DecodeGroups(bytes, k, w) == Ok(ShiftGroup(bytes[0] - 0x80, k, w) + p.result.value, p.rest)
  {
  }

  lemma PlusNothing(p: Parsed<nat>)
    ensures Plus(0, p) == p
  {
  }

  lemma ShiftGroupFits(group: nat, k: nat, w: Width)
    requires Scaled(group, k) < Modulus(w)
    ensures ShiftGroup(group, k, w) == Scaled(group, k)
  {
    Small(group * Pow128(k), Modulus(w));
  }

  lemma SplitPlace(high: nat, low: nat, k: nat)
    ensures Scaled(0x80 * high + low, k) == Scaled(high, k + 1) + Scaled(low, k)
  {
    assert high * Pow128(k + 1) == 0x80 * high * Pow128(k);
  }

  lemma NextGroup(high: nat, k: nat, w: Width)
    requires high > 0 && k < Groups(w) && Scaled(high, k + 1) < Modulus(w)
    ensures k + 1 < Groups(w)
  {
    MulMonotone(Pow128(k + 1), 1, high);
    Pow128Values();
  }

  /** A LEB128 code of any length, and the number it stands for. */
  predicate IsCode(bytes: seq<byte>) {
    bytes != [] && (if |bytes| == 1 then bytes[0] < 0x80 else bytes[0] >= 0x80 && IsCode(bytes[1..]))
  }

  function CodeValue(bytes: seq<byte>): nat
    requires IsCode(bytes)
  {
    if |bytes| == 1 then bytes[0] else bytes[0] - 0x80 + 0x80 * CodeValue(bytes[1..])
  }

  /** The encoder emits a code of its argument, and of all codes of that number the shortest; no
      other code is equally short. */
  lemma {:induction false} EncodingIsShortest(value: nat, other: seq<byte>)
    requires IsCode(other) && CodeValue(other) == value
    ensures IsCode(EncodeVarint(value)) && CodeValue(EncodeVarint(value)) == value
    ensures |EncodeVarint(value)| <= |other|
    ensures |EncodeVarint(value)| == |other| ==> EncodeVarint(value) == other
    decreases |other|
  {
    EncodingIsCode(value);
    if |other| > 1 && value >= 0x80 {
      assert value % 0x80 == other[0] - 0x80 && value / 0x80 == CodeValue(other[1..]);
      EncodingIsShortest(value / 0x80, other[1..]);
      assert other == [other[0]] + other[1..];
    } else if |other| == 1 {
      assert other == [other[0]];
    }
  }

  lemma {:induction false} EncodingIsCode(value: nat)
    ensures IsCode(EncodeVarint(value)) && CodeValue(EncodeVarint(value)) == value
  {
    if value >= 0x80 {
      EncodingIsCode(value / 0x80);
      assert EncodeVarint(value)[1..] == EncodeVarint(value / 0x80);
    }
  }

  /** `EncodeVarint` takes `n + 1` bytes exactly for the numbers with `n + 1` base-128 digits. */
  lemma {:induction false} EncodingLength(value: nat, n: nat)
    ensures |EncodeVarint(value)| <= n + 1 <==> value < Pow128(n + 1)
  {
    if n == 0 {
      assert Pow128(1) == 0x80;
    } else if value >= 0x80 {
      EncodingLength(value / 0x80, n - 1);
      assert Pow128(n + 1) == 0x80 * Pow128(n);
    } else {
      Bytes.MulMonotone(0x80, 1, Pow128(n));
    }
  }

  /** At most five bytes for 32 bits and ten for 64. */
  lemma EncodingFits(value: nat, w: Width)
    requires IsUnsigned(value, w)
    ensures |EncodeVarint(value)| <= Groups(w)
  {
    Pow128Values();
    EncodingLength(value, Groups(w) - 1);
  }
}
