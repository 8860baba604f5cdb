/** Octets and the big-endian integers the frame formats are built from. */
module Bytes {

  type Byte = x: int | 0 <= x < 0x100
  type U16 = x: int | 0 <= x < 0x1_0000
  type U32 = x: int | 0 <= x < 0x1_0000_0000

  const TWO_24: int := 0x100_0000
  const TWO_27: int := 0x800_0000
  const TWO_31: int := 0x8000_0000
  const TWO_32: int := 0x1_0000_0000
  const TWO_64: int := 0x1_0000_0000_0000_0000

  function Put16(v: U16): seq<Byte> {
    [v / 0x100, v % 0x100]
  }

  function Put24(v: int): seq<Byte>
    requires 0 <= v < TWO_24
  {
    [v / 0x1_0000, v / 0x100 % 0x100, v % 0x100]
  }

  function Put32(v: U32): (b: seq<Byte>)
    ensures |b| == 4
  {
    [v / 0x100_0000, v / 0x1_0000 % 0x100, v / 0x100 % 0x100, v % 0x100]
  }

  function Get16(b: seq<Byte>): U16
    requires |b| >= 2
  {
    0x100 * (b[0] as int) + b[1]
  }

  function Get24(b: seq<Byte>): (v: int)
    requires |b| >= 3
    ensures 0 <= v < TWO_24
  {
    0x1_0000 * (b[0] as int) + 0x100 * (b[1] as int) + b[2]
  }

  function Get32(b: seq<Byte>): U32
    requires |b| >= 4
  {
    0x100_0000 * (b[0] as int) + 0x1_0000 * (b[1] as int) + 0x100 * (b[2] as int) + b[3]
  }

  lemma GetPut16(v: U16, rest: seq<Byte>)
    ensures Get16(Put16(v) + rest) == v
  {}

  lemma GetPut24(v: int, rest: seq<Byte>)
    requires 0 <= v < TWO_24
    ensures Get24(Put24(v) + rest) == v
  {}

  lemma GetPut32(v: U32, rest: seq<Byte>)
    ensures Get32(Put32(v) + rest) == v
  {
    var (b, v1, v2, v3) := (Put32(v) + rest, v / 0x100, v / 0x1_0000, v / 0x100_0000);
    assert b[0] == v3 && b[1] == v2 % 0x100 && b[2] == v1 % 0x100 && b[3] == v % 0x100;
    assert v == 0x100 * v1 + v % 0x100 && v1 == 0x100 * v2 + v1 % 0x100 && v2 == 0x100 * v3 + v2 % 0x100;
  }

  lemma PutGet16(b: seq<Byte>)
    requires |b| >= 2
    ensures Put16(Get16(b)) == b[..2]
  {}

  lemma OneOctet(hi: int, lo: Byte)
    ensures (0x100 * hi + lo) / 0x100 == hi && (0x100 * hi + lo) % 0x100 == lo
  {}

  lemma PutGet32(b: seq<Byte>)
    requires |b| >= 4
    ensures Put32(Get32(b)) == b[..4]
  {
    var (v, v2, v1) := (Get32(b), 0x1_0000 * (b[0] as int) + 0x100 * (b[1] as int) + b[2], 0x100 * (b[0] as int) + b[1]);
    OneOctet(v2, b[3]);
    OneOctet(v1, b[2]);
    OneOctet(b[0], b[1]);
    assert v / 0x100 == v2 && v2 / 0x100 == v1 && v1 / 0x100 == b[0];
    assert v / 0x1_0000 == v1 && v / 0x100_0000 == b[0];
  }

  /** The number that octets spell, the most significant first. */
  function Number(b: seq<Byte>): nat {
    if b == [] then 0 else 0x100 * Number(b[..|b| - 1]) + b[|b| - 1]
  }

  lemma {:induction false} NumberMore(b: seq<Byte>, last: Byte)
    ensures Number(b + [last]) == 0x100 * Number(b) + last
  {
    assert (b + [last])[..|b|] == b;
  }

  lemma {:induction false} NumberOfFour(a: Byte, b: Byte, c: Byte, d: Byte)
    ensures Number([a]) == a && Number([a, b]) == 0x100 * (a as int) + b
    ensures Number([a, b, c]) == 0x1_0000 * (a as int) + 0x100 * (b as int) + c
    ensures Number([a, b, c, d]) == 0x100_0000 * (a as int) + 0x1_0000 * (b as int) + 0x100 * (c as int) + d
  {
    NumberMore([], a);
    NumberMore([a], b);
    NumberMore([a, b], c);
    NumberMore([a, b, c], d);
    assert [] + [a] == [a] && [a] + [b] == [a, b] && [a, b] + [c] == [a, b, c] && [a, b, c] + [d] == [a, b, c, d];
  }

  /** What the readers read is what the octets spell. */
  lemma {:induction false} GetsNumber(b: seq<Byte>)
    ensures |b| >= 2 ==> Get16(b) == Number(b[..2])
    ensures |b| >= 3 ==> Get24(b) == Number(b[..3])
    ensures |b| >= 4 ==> Get32(b) == Number(b[..4])
  {
    hide Number;
    if |b| >= 2 {
      NumberOfFour(b[0], b[1], 0, 0);
      assert b[..2] == [b[0], b[1]];
    }
    if |b| >= 3 {
      NumberOfFour(b[0], b[1], b[2], 0);
      assert b[..3] == [b[0], b[1], b[2]];
    }
    if |b| >= 4 {
      NumberOfFour(b[0], b[1], b[2], b[3]);
      assert b[..4] == [b[0], b[1], b[2], b[3]];
    }
  }

  /** What the writers write spells the number they are given. */
  lemma PutsNumber(n: U32)
    ensures n < 0x1_0000 ==> |Put16(n)| == 2 && Number(Put16(n)) == n
    ensures n < TWO_24 ==> |Put24(n)| == 3 && Number(Put24(n)) == n
    ensures |Put32(n)| == 4 && Number(Put32(n)) == n
  {
    hide Number;
    if n < 0x1_0000 {
      GetPut16(n, []);
      assert Put16(n) + [] == Put16(n)[..2] == Put16(n);
      GetsNumber(Put16(n));
    }
    if n < TWO_24 {
      GetPut24(n, []);
      assert Put24(n) + [] == Put24(n)[..3] == Put24(n);
      GetsNumber(Put24(n));
    }
    GetPut32(n, []);
    assert Put32(n) + [] == Put32(n)[..4] == Put32(n);
    GetsNumber(Put32(n));
  }
}
