/** 32-byte hashes and their order (src/types/hash.rs).
    A hash is compared through two 128-bit big-endian halves; this module shows that the
    comparison is the one on 256-bit integers, and on bytes read from the left. */
module Hash {

  type u8 = x: int | 0 <= x < 0x100
  type u32 = x: int | 0 <= x < 0x1_0000_0000

  const U32_LIMIT: int := 0x1_0000_0000

  type Bytes32 = b: seq<u8> | |b| == 32 witness seq(32, _ => 0)

  datatype H256 = H256(bytes: Bytes32)

  datatype Ordering = Less | Equal | Greater

  /** The all-zero hash: parent of the genesis block and outpoint of the initial coins. */
  function ZeroHash(): H256 {
    H256(seq(32, _ => 0))
  }

  function Pow256(n: nat): (p: nat)
    ensures p > 0
  {
    if n == 0 then 1 else 256 * Pow256(n - 1)
  }

  /** The integer a byte string denotes, most significant byte first. */
  function BigEndian(b: seq<u8>): nat {
    if b == [] then 0 else b[0] * Pow256(|b| - 1) + BigEndian(b[1..])
  }

  function Compare(a: nat, b: nat): Ordering {
    if a < b then Less else if a == b then Equal else Greater
  }

  /** `Ord::cmp`: upper halves first, lower halves on a tie. */
  function Cmp(a: H256, b: H256): Ordering {
    var higher := Compare(BigEndian(a.bytes[0..16]), BigEndian(b.bytes[0..16]));
    match higher
    case Equal => Compare(BigEndian(a.bytes[16..32]), BigEndian(b.bytes[16..32]))
    case _ => higher
  }

  /** The operator `<=` of the source. */
  predicate Le(a: H256, b: H256) {
    Cmp(a, b) != Greater
  }

  /** Byte strings ordered as words in a dictionary. */
  predicate LexLess(a: seq<u8>, b: seq<u8>)
    requires |a| == |b|
  {
    a != [] && (a[0] < b[0] || (a[0] == b[0] && LexLess(a[1..], b[1..])))
  }

  lemma {:induction false} BigEndianBound(b: seq<u8>)
    ensures BigEndian(b) < Pow256(|b|)
  {
    if b != [] {
      BigEndianBound(b[1..]);
      MulLe(b[0], 255, Pow256(|b| - 1));
    }
  }

  lemma {:induction false} MulLe(x: nat, y: nat, p: nat)
    requires x <= y
    ensures x * p <= y * p
  {
  }

  /** Leading digits decide: the one fact about positional notation used below. */
  lemma {:induction false} LeadingDigit(h: nat, l: nat, h': nat, l': nat, p: nat)
    requires l < p && l' < p
    ensures Compare(h * p + l, h' * p + l') == if h == h' then Compare(l, l') else Compare(h, h')
  {
    if h < h' {
      MulLe(h + 1, h', p);
    } else if h' < h {
      MulLe(h' + 1, h, p);
    }
  }

  lemma {:induction false} PowAdd(m: nat, n: nat)
    ensures Pow256(m + n) == Pow256(m) * Pow256(n)
  {
    if m > 0 {
      PowAdd(m - 1, n);
    }
  }

  lemma {:induction false} BigEndianConcat(a: seq<u8>, b: seq<u8>)
    ensures BigEndian(a + b) == BigEndian(a) * Pow256(|b|) + BigEndian(b)
  {
    if a == [] {
      assert a + b == b;
    } else {
      var n, p, q := a[0], Pow256(|a| - 1), Pow256(|b|);
      assert (a + b)[1..] == a[1..] + b;
      BigEndianConcat(a[1..], b);
      PowAdd(|a| - 1, |b|);
      Regroup(n, p, q, BigEndian(a[1..]));
    }
  }

  lemma {:induction false} Regroup(n: nat, p: nat, q: nat, r: nat)
    ensures n * (p * q) + r * q == (n * p + r) * q
  {
  }

  /** Comparing halves is comparing 256-bit integers. */
  lemma {:induction false} CmpIsNumeric(a: H256, b: H256)
    ensures Cmp(a, b) == Compare(BigEndian(a.bytes), BigEndian(b.bytes))
  {
    hide BigEndian, Pow256;
    var x, y := a.bytes, b.bytes;
    assert x == x[0..16] + x[16..32] && y == y[0..16] + y[16..32];
    BigEndianConcat(x[0..16], x[16..32]);
    BigEndianConcat(y[0..16], y[16..32]);
    BigEndianBound(x[16..32]);
    BigEndianBound(y[16..32]);
    LeadingDigit(BigEndian(x[0..16]), BigEndian(x[16..32]),
                 BigEndian(y[0..16]), BigEndian(y[16..32]), Pow256(16));
  }

  lemma {:induction false} NumericIsLexicographic(a: seq<u8>, b: seq<u8>)
    requires |a| == |b|
    ensures BigEndian(a) < BigEndian(b) <==> LexLess(a, b)
    ensures BigEndian(a) == BigEndian(b) <==> a == b
  {
    if a != [] {
      NumericIsLexicographic(a[1..], b[1..]);
      BigEndianBound(a[1..]);
      BigEndianBound(b[1..]);
      LeadingDigit(a[0], BigEndian(a[1..]), b[0], BigEndian(b[1..]), Pow256(|a| - 1));
      assert a == [a[0]] + a[1..] && b == [b[0]] + b[1..];
    }
  }

  /** Comparing halves is comparing bytes from the left; it agrees with equality of hashes. */
  lemma {:induction false} CmpIsLexicographic(a: H256, b: H256)
    ensures Cmp(a, b) == Less <==> LexLess(a.bytes, b.bytes)
    ensures Cmp(a, b) == Equal <==> a == b
    ensures Cmp(a, b) == Greater <==> LexLess(b.bytes, a.bytes)
  {
    CmpIsNumeric(a, b);
    NumericIsLexicographic(a.bytes, b.bytes);
    NumericIsLexicographic(b.bytes, a.bytes);
  }

  /** `<=` on hashes is a total order, and is the numeric test the proof of work intends. */
  lemma {:induction false} LeIsTotalOrder(a: H256, b: H256, d: H256)
    ensures Le(a, b) <==> BigEndian(a.bytes) <= BigEndian(b.bytes)
    ensures Le(a, b) || Le(b, a)
    ensures Le(a, b) && Le(b, a) ==> a == b
    ensures Le(a, b) && Le(b, d) ==> Le(a, d)
  {
    CmpIsNumeric(a, b);
    CmpIsNumeric(b, a);
    CmpIsNumeric(b, d);
    CmpIsNumeric(a, d);
    CmpIsLexicographic(a, b);
  }
}
