/** Bytes and the big-endian numbers of the wire formats. */
module Bytes {

  type Byte = n: nat | n < 256
  type U16 = n: nat | n < 0x1_0000
  type U32 = n: nat | n < 0x1_0000_0000
  type Bytes = seq<Byte>

  /** The unsigned conversions of the source keep the low bits. */
  function Low16(n: nat): U16 { n % 0x1_0000 }

  function Low32(n: nat): U32 { n % 0x1_0000_0000 }

  function Put16(n: U16): (r: Bytes)
    ensures |r| == 2
  {
    [n / 0x100, n % 0x100]
  }

  function Put32(n: U32): (r: Bytes)
    ensures |r| == 4
  {
    [n / 0x100_0000, n / 0x1_0000 % 0x100, n / 0x100 % 0x100, n % 0x100]
  }

  function Get32(s: Bytes): U32
    requires |s| >= 4
  {
    s[0] as int * 0x100_0000 + s[1] as int * 0x1_0000 + s[2] as int * 0x100 + s[3]
  }

  lemma GetPut32(n: U32, rest: Bytes)
    ensures Get32(Put32(n) + rest) == n
  {
    var a, b, c := n / 0x100, n / 0x1_0000, n / 0x100_0000;
    assert n == 0x100 * a + n % 0x100;
    assert a == 0x100 * b + a % 0x100;
    assert b == 0x100 * c + b % 0x100;
  }

  lemma Associative(a: Bytes, b: Bytes, c: Bytes)
    ensures a + (b + c) == a + b + c
  {
  }

  /** Cutting a concatenation where it was joined. */
  lemma Cut(a: Bytes, b: Bytes, c: Bytes)
    ensures |a + b + c| == |a| + |b| + |c| && (a + b + c)[..|a|] == a
    ensures (a + b + c)[|a|..|a| + |b|] == b && (a + b + c)[|a| + |b|..] == c
  {
  }
}
