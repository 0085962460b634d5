/** Fixed-width integers as bytes. */
module ByteOrder {
  type Byte = x: int | 0 <= x < 256
  type Bytes = seq<Byte>
  type Word = x: int | 0 <= x < 0x1_0000_0000

  function Limit(width: nat): (r: nat)
    ensures r > 0
  {
    if width == 0 then 1 else 256 * Limit(width - 1)
  }

  /** The low `width` bytes, least significant first. */
  function Little(n: nat, width: nat): (s: Bytes)
    ensures |s| == width
  {
    if width == 0 then [] else [n % 256] + Little(n / 256, width - 1)
  }

  function FromLittle(s: Bytes): nat {
    if s == [] then 0 else s[0] + 256 * FromLittle(s[1..])
  }

  /** The low `width` bytes, most significant first. */
  function Big(n: nat, width: nat): (s: Bytes)
    ensures |s| == width
  {
    if width == 0 then [] else Big(n / 256, width - 1) + [n % 256]
  }

  function FromBig(s: Bytes): nat {
    if s == [] then 0 else 256 * FromBig(s[..|s| - 1]) + s[|s| - 1]
  }

  lemma {:induction false} LittleRoundTrip(n: nat, width: nat)
    requires n < Limit(width)
    ensures FromLittle(Little(n, width)) == n
  {
    if width > 0 {
      LittleRoundTrip(n / 256, width - 1);
      assert Little(n, width)[1..] == Little(n / 256, width - 1);
    }
  }

  lemma {:induction false} BigRoundTrip(n: nat, width: nat)
    requires n < Limit(width)
    ensures FromBig(Big(n, width)) == n
  {
    if width > 0 {
      BigRoundTrip(n / 256, width - 1);
      assert Big(n, width)[..width - 1] == Big(n / 256, width - 1);
    }
  }

  lemma Limits()
    ensures Limit(1) == 256 && Limit(2) == 65536 && Limit(4) == 0x1_0000_0000
  {
    assert Limit(1) == 256 * Limit(0) && Limit(2) == 256 * Limit(1) && Limit(3) == 256 * Limit(2)
           && Limit(4) == 256 * Limit(3);
  }
}
