/** The difficulty literal of the source (src/blockchain/mod.rs, src/miner/mod.rs) as one number. */
module Difficulty {
  import opened Hash
  import opened Chains

  /** The value of the first n bytes, worked out from the left. */
  function Accumulate(b: seq<u8>, n: nat): nat
    requires n <= |b|
  {
    if n == 0 then 0 else Accumulate(b, n - 1) * 256 + b[n - 1]
  }

  lemma {:induction false} AccumulateIsBigEndian(b: seq<u8>, n: nat)
    requires n <= |b|
    ensures Accumulate(b, n) == BigEndian(b[..n])
  {
    if n > 0 {
      AccumulateIsBigEndian(b, n - 1);
      assert b[..n] == b[..n - 1] + [b[n - 1]];
      BigEndianConcat(b[..n - 1], [b[n - 1]]);
      assert [b[n - 1]][1..] == [];
      assert Pow256(0) == 1 && Pow256(1) == 256;
      assert BigEndian([b[n - 1]]) == b[n - 1];
    }
  }

  lemma {:induction false} FourBytes(b: seq<u8>, n: nat, x: int, y: int, z: int, w: int)
    requires n + 4 <= |b| && b[n] == x && b[n + 1] == y && b[n + 2] == z && b[n + 3] == w
    ensures Accumulate(b, n + 4) == Accumulate(b, n) * 0x1_0000_0000 + x * 0x100_0000 + y * 0x1_0000 + z * 0x100 + w
  {
    assert Accumulate(b, n + 1) == Accumulate(b, n) * 256 + x;
    assert Accumulate(b, n + 2) == Accumulate(b, n + 1) * 256 + y;
    assert Accumulate(b, n + 3) == Accumulate(b, n + 2) * 256 + z;
    assert Accumulate(b, n + 4) == Accumulate(b, n + 3) * 256 + w;
  }

  lemma {:induction false} UpperHalf(b: seq<u8>)
    requires |b| == 16
    requires b[0] == 0x00 && b[1] == 0x0f && b[2] == 0xf9 && b[3] == 0x3a
    requires b[4] == 0x75 && b[5] == 0xa7 && b[6] == 0x58 && b[7] == 0x95
    requires b[8] == 0xa3 && b[9] == 0x51 && b[10] == 0x78 && b[11] == 0x6d
    requires b[12] == 0xd7 && b[13] == 0xa1 && b[14] == 0x88 && b[15] == 0x51
    ensures BigEndian(b) == 0x000ff93a75a75895a351786dd7a18851
  {
    AccumulateIsBigEndian(b, 16);
    assert b[..16] == b && Accumulate(b, 0) == 0;
    hide Accumulate, BigEndian;
    FourBytes(b, 0, 0x00, 0x0f, 0xf9, 0x3a);
    FourBytes(b, 4, 0x75, 0xa7, 0x58, 0x95);
    FourBytes(b, 8, 0xa3, 0x51, 0x78, 0x6d);
    FourBytes(b, 12, 0xd7, 0xa1, 0x88, 0x51);
  }

  lemma {:induction false} LowerHalf(b: seq<u8>)
    requires |b| == 16
    requires b[0] == 0x51 && b[1] == 0x73 && b[2] == 0xf6 && b[3] == 0x92
    requires b[4] == 0x8a && b[5] == 0x8a && b[6] == 0xf8 && b[7] == 0xc9
    requires b[8] == 0xba && b[9] == 0xa4 && b[10] == 0xdc && b[11] == 0xff
    requires b[12] == 0x26 && b[13] == 0x8a && b[14] == 0x4f && b[15] == 0x0f
    ensures BigEndian(b) == 0x5173f6928a8af8c9baa4dcff268a4f0f
  {
    AccumulateIsBigEndian(b, 16);
    assert b[..16] == b && Accumulate(b, 0) == 0;
    hide Accumulate, BigEndian;
    FourBytes(b, 0, 0x51, 0x73, 0xf6, 0x92);
    FourBytes(b, 4, 0x8a, 0x8a, 0xf8, 0xc9);
    FourBytes(b, 8, 0xba, 0xa4, 0xdc, 0xff);
    FourBytes(b, 12, 0x26, 0x8a, 0x4f, 0x0f);
  }

  lemma {:induction false} Pow256Of16()
    ensures Pow256(16) == 0x1_0000_0000_0000_0000_0000_0000_0000_0000
  {
    PowAdd(8, 8);
    PowAdd(4, 4);
    PowAdd(2, 2);
    PowAdd(1, 1);
    assert Pow256(1) == 256 * Pow256(0);
  }

  /** The genesis difficulty as one number. */
  lemma {:induction false} GenesisDifficultyValue()
    ensures BigEndian(GenesisDifficulty().bytes) == 0x000ff93a75a75895a351786dd7a188515173f6928a8af8c9baa4dcff268a4f0f
  {
    var b := GenesisDifficulty().bytes;
    hide BigEndian, Pow256;
    assert b == b[..16] + b[16..];
    UpperHalf(b[..16]);
    LowerHalf(b[16..]);
    Pow256Of16();
    BigEndianConcat(b[..16], b[16..]);
  }
}
