/** Big-endian integers: the standard library's `to_be_bytes` and its inverse. */
module BigEndian {
  import opened Basics

  function Pow256(width: nat): nat {
    if width == 0 then 1 else 256 * Pow256(width - 1)
  }

  /** The low `width` bytes of `x`, most significant first. */
  function ToBytes(x: nat, width: nat): (bs: seq<byte>)
    ensures |bs| == width
  {
    if width == 0 then [] else ToBytes(x / 256, width - 1) + [x % 256]
  }

  function FromBytes(bs: seq<byte>): nat {
    if bs == [] then 0 else 256 * FromBytes(bs[..|bs| - 1]) + bs[|bs| - 1]
  }

  lemma {:induction false} LastByte(front: seq<byte>, b: byte)
    ensures FromBytes(front + [b]) == 256 * FromBytes(front) + b
  {
    assert (front + [b])[..|front|] == front;
  }

  lemma {:induction false} FromToBytes(x: nat, width: nat)
    requires x < Pow256(width)
    ensures FromBytes(ToBytes(x, width)) == x
  {
    if width == 0 {
    } else {
      var front := ToBytes(x / 256, width - 1);
      FromToBytes(x / 256, width - 1);
      LastByte(front, x % 256);
    }
  }

  lemma {:induction false} Weigh(a: nat, p: nat, b: nat, last: nat)
    ensures 256 * (a * p + b) + last == a * (256 * p) + (256 * b + last)
  {
  }

  lemma {:induction false} TwoOctets(x: u16)
    ensures ToBytes(x, 2) == [x / 256, x % 256]
  {
    assert ToBytes(x / 256, 1) == [x / 256] by {
      assert ToBytes(x / 256 / 256, 0) == [];
    }
  }

  /** Most significant octet first: what stands in front weighs 256 to the number of octets behind it. */
  lemma {:induction false} FromBytesConcat(a: seq<byte>, b: seq<byte>)
    ensures FromBytes(a + b) == FromBytes(a) * Pow256(|b|) + FromBytes(b)
  {
    if b == [] {
      ConcatEmpty(a);
    } else {
      var front, last := b[..|b| - 1], b[|b| - 1];
      ConcatFront(a, b);
      FromBytesConcat(a, front);
      Weigh(FromBytes(a), Pow256(|front|), FromBytes(front), last);
    }
  }

  lemma {:induction false} FromBytesBound(bs: seq<byte>)
    ensures FromBytes(bs) < Pow256(|bs|)
  {
    if bs == [] {
    } else {
      FromBytesBound(bs[..|bs| - 1]);
    }
  }

  lemma {:induction false} Pow256Values()
    ensures Pow256(1) == 0x100
    ensures Pow256(2) == 0x1_0000
    ensures Pow256(4) == 0x1_0000_0000
    ensures Pow256(8) == 0x1_0000_0000_0000_0000
  {
    assert Pow256(3) == 0x100_0000;
    assert Pow256(6) == 0x1_0000_0000_0000 by { assert Pow256(5) == 0x100_0000_0000; }
    assert Pow256(7) == 0x100_0000_0000_0000;
  }

  lemma {:induction false} U16RoundTrip(x: u16)
    ensures FromBytes(ToBytes(x, 2)) == x
  {
    Pow256Values();
    FromToBytes(x, 2);
  }

  lemma {:induction false} U32RoundTrip(x: u32)
    ensures FromBytes(ToBytes(x, 4)) == x
  {
    Pow256Values();
    FromToBytes(x, 4);
  }
}
