/** Big-endian integers. */
module Bytes {
  type Byte = x: int | 0 <= x < 256

  /** The `width` low-order bytes of `n`, most significant first. */
  function BigEndian(n: nat, width: nat): (k: seq<Byte>)
    ensures |k| == width
  {
    if width == 0 then [] else BigEndian(n / 256, width - 1) + [n % 256]
  }

  function Value(k: seq<Byte>): nat {
    if k == [] then 0 else 256 * Value(k[..|k| - 1]) + k[|k| - 1]
  }

  function Power256(width: nat): nat {
    if width == 0 then 1 else 256 * Power256(width - 1)
  }

  lemma {:induction false} ValueOfBigEndian(n: nat, width: nat)
    requires n < Power256(width)
    ensures Value(BigEndian(n, width)) == n
  {
    if width > 0 {
      ValueOfBigEndian(n / 256, width - 1);
      var k := BigEndian(n, width);
      assert k[..|k| - 1] == BigEndian(n / 256, width - 1);
    }
  }

  lemma {:induction false} BigEndianOfValue(k: seq<Byte>)
    ensures Value(k) < Power256(|k|) && BigEndian(Value(k), |k|) == k
  {
    if k == [] {
    } else {
      BigEndianOfValue(k[..|k| - 1]);
      assert k == k[..|k| - 1] + [k[|k| - 1]];
    }
  }
}
