/** Options, machine-integer types and the little-endian integer codec shared by every module. */
module Bytes {

  datatype Option<+T> = None | Some(value: T)

  type byte = x: int | 0 <= x < 256
  type bytes = seq<byte>

  type u16 = x: int | 0 <= x < 0x1_0000
  type u32 = x: int | 0 <= x < 0x1_0000_0000
  type u64 = x: int | 0 <= x < 0x1_0000_0000_0000_0000

  const U16_SIZE := 0x1_0000
  const U64_SIZE := 0x1_0000_0000_0000_0000

  /** Adding to a 64-bit counter, which wraps around. */
  function Add64(a: u64, n: nat): u64 {
    (a + n) % U64_SIZE
  }

  lemma Add64Twice(a: u64, m: nat, n: nat)
    ensures Add64(Add64(a, m), n) == Add64(a, m + n)
  {
    var q := (a + m) / U64_SIZE;
    assert a + m == q * U64_SIZE + (a + m) % U64_SIZE;
  }

  /** 256 to the power `n`. */
  function Pow256(n: nat): nat {
    if n == 0 then 1 else 256 * Pow256(n - 1)
  }

  /** The `n` least significant bytes of `v`, least significant first. */
  function ToLE(v: nat, n: nat): (r: bytes)
    ensures |r| == n
  {
    if n == 0 then [] else [v % 256] + ToLE(v / 256, n - 1)
  }

  /** The number whose little-endian digits are `s`. */
  function FromLE(s: bytes): (v: nat)
    ensures v < Pow256(|s|)
  {
    if s == [] then 0 else s[0] + 256 * FromLE(s[1..])
  }

  lemma {:induction false} FromToLE(v: nat, n: nat)
    requires v < Pow256(n)
    ensures FromLE(ToLE(v, n)) == v
  {
    if n > 0 {
      FromToLE(v / 256, n - 1);
      assert ToLE(v, n)[1..] == ToLE(v / 256, n - 1);
    }
  }

  lemma {:induction false} ToFromLE(s: bytes)
    ensures ToLE(FromLE(s), |s|) == s
  {
    if s != [] {
      ToFromLE(s[1..]);
      assert s == [s[0]] + s[1..];
    }
  }

  lemma Widths()
    ensures Pow256(2) == 0x1_0000
    ensures Pow256(4) == 0x1_0000_0000
    ensures Pow256(8) == 0x1_0000_0000_0000_0000
  {
    assert Pow256(3) == 256 * Pow256(2);
    assert Pow256(5) == 256 * Pow256(4);
    assert Pow256(6) == 256 * Pow256(5);
    assert Pow256(7) == 256 * Pow256(6);
  }
}
