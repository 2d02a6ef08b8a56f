/** Variable-length integers as the Go library writes them: seven bits a byte, least significant first. */
module Varint {
  import opened Bytes

  const MAX_GROUPS: nat := 10

  function PutUvarint(v: nat): Bytes
  {
    if v < 128 then [v] else [v % 128 + 128] + PutUvarint(v / 128)
  }

  datatype Number = Number(value: nat, size: nat) | NotANumber

  // Reads from group `i` on; a tenth group may only hold the last bit of a 64-bit value.
  function ReadUvarint(b: Bytes, i: nat): (n: Number)
    ensures n.Number? ==> 0 < n.size <= |b|
    decreases |b|
  {
    if b == [] || i >= MAX_GROUPS then NotANumber
    else if b[0] < 128 then if i == MAX_GROUPS - 1 && b[0] > 1 then NotANumber else Number(b[0], 1)
    else
      match ReadUvarint(b[1..], i + 1)
      case NotANumber => NotANumber
      case Number(rest, size) => Number(b[0] - 128 + 128 * rest, size + 1)
  }

  // What fits from group `i` on.
  function Limit(i: nat): nat
    requires i < MAX_GROUPS
    decreases MAX_GROUPS - i
  {
    if i == MAX_GROUPS - 1 then 2 else 128 * Limit(i + 1)
  }

  lemma LimitIs64Bits()
    ensures Limit(0) == U64_LIMIT
  {
    assert Limit(8) == 256 && Limit(7) == 0x8000 && Limit(6) == 0x40_0000 && Limit(5) == 0x2000_0000;
    assert Limit(4) == 0x10_0000_0000 && Limit(3) == 0x800_0000_0000 && Limit(2) == 0x4_0000_0000_0000;
    assert Limit(1) == 0x200_0000_0000_0000;
  }

  lemma {:induction false} UvarintFrom(v: nat, i: nat, rest: Bytes)
    requires i < MAX_GROUPS && v < Limit(i)
    ensures ReadUvarint(PutUvarint(v) + rest, i) == Number(v, |PutUvarint(v)|)
    decreases v
  {
    var b := PutUvarint(v) + rest;
    if v < 128 {
      assert b[0] == v;
    } else {
      assert i < MAX_GROUPS - 1;
      assert b[0] == v % 128 + 128 && b[1..] == PutUvarint(v / 128) + rest;
      UvarintFrom(v / 128, i + 1, rest);
    }
  }

  lemma UvarintRoundTrip(v: nat, rest: Bytes)
    requires v < U64_LIMIT
    ensures ReadUvarint(PutUvarint(v) + rest, 0) == Number(v, |PutUvarint(v)|)
  {
    LimitIs64Bits();
    UvarintFrom(v, 0, rest);
  }

  // Signed values, with the sign in the lowest bit.
  function ZigZag(v: int): nat
  {
    if v >= 0 then 2 * v else -2 * v - 1
  }

  function UnZigZag(u: nat): int
  {
    if u % 2 == 0 then u / 2 else -(u / 2) - 1
  }

  lemma ZigZagRoundTrip(v: int)
    ensures UnZigZag(ZigZag(v)) == v
  {}

  // Bits, least significant first.
  function Pack(bits: seq<bool>): nat
  {
    if bits == [] then 0 else (if bits[0] then 1 else 0) + 2 * Pack(bits[1..])
  }

  function Unpack(n: nat, k: nat): (bits: seq<bool>)
    ensures |bits| == k
  {
    if k == 0 then [] else [n % 2 == 1] + Unpack(n / 2, k - 1)
  }

  function Pow2(k: nat): nat { if k == 0 then 1 else 2 * Pow2(k - 1) }

  lemma {:induction false} PackRoundTrip(bits: seq<bool>)
    ensures Unpack(Pack(bits), |bits|) == bits && Pack(bits) < Pow2(|bits|)
  {
    if bits != [] { PackRoundTrip(bits[1..]); }
  }
}
