/** Unsigned 256-bit integers and their big-endian byte form: the part of
    `primitive_types::U256` that the program uses, namely `to_big_endian`
    into a 32-byte buffer and `From<&[u8]>`, which reads bytes most
    significant first. */
module Uint256 {

  /** An octet. */
  type byte = x: int | 0 <= x < 256

  /** 256 to the power k: how many values k bytes can hold. */
  function Pow256(k: nat): (r: nat)
    ensures r >= 1
  {
    if k == 0 then 1 else 256 * Pow256(k - 1)
  }

  /** The values a `U256` holds: the naturals below 2^256. */
  type U256 = n: nat | n < Pow256(32)

  /** The `width` low-order bytes of `n`, most significant first. */
  function ToBigEndian(n: nat, width: nat): (s: seq<byte>)
    ensures |s| == width
  {
    if width == 0 then [] else ToBigEndian(n / 256, width - 1) + [n % 256]
  }

  /** The number whose big-endian form is `s`. */
  function FromBigEndian(s: seq<byte>): (n: nat)
    ensures n < Pow256(|s|)
  {
    if s == [] then 0 else FromBigEndian(s[..|s| - 1]) * 256 + s[|s| - 1]
  }

  /** Decoding an encoding gives the value back whenever the value fits. */
  lemma {:induction false} FromToBigEndian(n: nat, width: nat)
    requires n < Pow256(width)
    ensures FromBigEndian(ToBigEndian(n, width)) == n
  {
    if width > 0 {
      FromToBigEndian(n / 256, width - 1);
      var s := ToBigEndian(n, width);
      assert s[..width - 1] == ToBigEndian(n / 256, width - 1);
    }
  }

  /** Encoding a decoded byte string at its own width gives the string back. */
  lemma {:induction false} ToFromBigEndian(s: seq<byte>)
    ensures ToBigEndian(FromBigEndian(s), |s|) == s
  {
    if s != [] {
      var init := s[..|s| - 1];
      ToFromBigEndian(init);
      var n := FromBigEndian(s);
      assert n / 256 == FromBigEndian(init) && n % 256 == s[|s| - 1];
      assert s == init + [s[|s| - 1]];
    }
  }

  /** Two byte strings of the same length that read as the same number are equal. */
  lemma {:induction false} FromBigEndianInjective(a: seq<byte>, b: seq<byte>)
    requires |a| == |b| && FromBigEndian(a) == FromBigEndian(b)
    ensures a == b
  {
    ToFromBigEndian(a);
    ToFromBigEndian(b);
  }

  /** A value below 256^k occupies only the last k bytes of its encoding:
      everything before them is zero padding on the left. */
  lemma {:induction false} LeftZeroPadded(n: nat, width: nat, k: nat)
    requires k <= width && n < Pow256(k)
    ensures forall i | 0 <= i < width - k :: ToBigEndian(n, width)[i] == 0
  {
    if width > k {
      LeftZeroPadded(n / 256, width - 1, if k == 0 then 0 else k - 1);
    }
  }

  /** `U256::to_big_endian`: overwrites the 32-byte buffer `buf` with
      `value`, most significant byte first. */
  method WriteBigEndian(value: U256, buf: array<byte>)
    requires buf.Length == 32
    modifies buf
    ensures buf[..] == ToBigEndian(value, 32)
  {
    var v: nat := value;
    var i := buf.Length;
    while i > 0
      invariant 0 <= i <= buf.Length
      invariant ToBigEndian(v, i) + buf[i..] == ToBigEndian(value, 32)
    {
      ghost var done := buf[i..];
      i := i - 1;
      buf[i] := v % 256;
      assert buf[i..] == [v % 256] + done;
      v := v / 256;
    }
  }
}
