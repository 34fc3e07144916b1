/** The Merkle tree (src/types/merkle.rs): levels built bottom-up with the last node repeated
    on odd levels, proofs by index arithmetic, and verification by folding.
    The digest of two concatenated hashes is a parameter `p`; collision-freeness is a premise
    on the finitely many pairs that occur. */
module Merkle {
  import opened Hash

  type PairHash = (H256, H256) -> H256
  type Pair = (H256, H256)
  type Level = seq<H256>

  /** The tree: its levels, leaves first. */
  datatype MerkleTree = MerkleTree(treeList: seq<Level>)

  function Combine(p: PairHash, x: Pair): H256 {
    p(x.0, x.1)
  }

  function PadLength(n: nat): nat {
    if n != 1 && n % 2 != 0 then n + 1 else n
  }

  /** A level longer than one and of odd length gets its last node repeated. */
  function Pad(level: Level): (r: Level)
    ensures |r| == PadLength(|level|)
  {
    if |level| != 1 && |level| % 2 != 0 then level + [level[|level| - 1]] else level
  }

  function PairAt(level: Level, k: nat): Pair
    requires 2 * k + 1 < |level|
  {
    (level[2 * k], level[2 * k + 1])
  }

  function PairUp(p: PairHash, level: Level): (r: Level)
    ensures |r| == |level| / 2
  {
    seq(|level| / 2, k requires 0 <= k < |level| / 2 => Combine(p, PairAt(level, k)))
  }

  /** Level `l` is not the top, has even length, and the next level is its pairing, padded. */
  ghost predicate LiesAbove(p: PairHash, t: seq<Level>, l: nat) {
    l + 1 < |t| && |t[l]| > 1 && |t[l]| % 2 == 0 && t[l + 1] == Pad(PairUp(p, t[l]))
  }

  /** A tree under construction: consistent up to its last level. */
  ghost predicate Stacked(p: PairHash, t: seq<Level>) {
    && t != []
    && forall l {:trigger LiesAbove(p, t, l)} :: 0 <= l < |t| - 1 ==> LiesAbove(p, t, l)
  }

  ghost predicate WellBuilt(p: PairHash, t: seq<Level>) {
    Stacked(p, t) && |t[|t| - 1]| == 1
  }

  function LeafHashes<T>(data: seq<T>, hash: T -> H256): (r: Level)
    ensures |r| == |data|
  {
    seq(|data|, i requires 0 <= i < |data| => hash(data[i]))
  }

  /** `t` is the tree of `data`. */
  ghost predicate TreeOf<T>(p: PairHash, data: seq<T>, hash: T -> H256, t: MerkleTree) {
    if data == [] then t.treeList == []
    else WellBuilt(p, t.treeList) && t.treeList[0] == Pad(LeafHashes(data, hash))
  }

  lemma {:induction false} StackOne(p: PairHash, t: seq<Level>)
    requires Stacked(p, t) && |t[|t| - 1]| > 1 && |t[|t| - 1]| % 2 == 0
    ensures Stacked(p, t + [Pad(PairUp(p, t[|t| - 1]))])
  {
    var u := t + [Pad(PairUp(p, t[|t| - 1]))];
    forall l | 0 <= l < |u| - 1
      ensures LiesAbove(p, u, l)
    {
      assert l < |t| - 1 ==> LiesAbove(p, t, l);
    }
  }

  /** `MerkleTree::new`. */
  method New<T>(p: PairHash, data: seq<T>, hash: T -> H256) returns (tree: MerkleTree)
    ensures TreeOf(p, data, hash, tree)
  {
    if |data| == 0 {
      return MerkleTree([]);
    }
    var level0: Level := [];
    for d := 0 to |data|
      invariant level0 == LeafHashes(data, hash)[..d]
    {
      level0 := level0 + [hash(data[d])];
    }
    if |level0| != 1 && |level0| % 2 != 0 {
      level0 := level0 + [level0[|level0| - 1]];
    }
    var t := [level0];
    var currentLevel := 0;
    while |t[currentLevel]| != 1
      invariant |t| == currentLevel + 1 && t[0] == Pad(LeafHashes(data, hash))
      invariant |t[currentLevel]| == 1 || (|t[currentLevel]| > 0 && |t[currentLevel]| % 2 == 0)
      invariant Stacked(p, t)
      decreases |t[currentLevel]|
    {
      var below, index := t[currentLevel], 0;
      var nextLevel: Level := [];
      while index < |below|
        invariant index % 2 == 0 && index <= |below|
        invariant nextLevel == PairUp(p, below)[..index / 2]
      {
        nextLevel := nextLevel + [Combine(p, (below[index], below[index + 1]))];
        index := index + 2;
      }
      if |nextLevel| != 1 && |nextLevel| % 2 != 0 {
        nextLevel := nextLevel + [nextLevel[|nextLevel| - 1]];
      }
      assert nextLevel == Pad(PairUp(p, below));
      StackOne(p, t);
      t, currentLevel := t + [nextLevel], currentLevel + 1;
    }
    tree := MerkleTree(t);
  }

  /** `MerkleTree::root`: the single node of the top level, or zero for the empty tree. */
  function Root(tree: MerkleTree): H256
    requires tree.treeList != [] ==> tree.treeList[|tree.treeList| - 1] != []
  {
    if tree.treeList == [] then ZeroHash() else tree.treeList[|tree.treeList| - 1][0]
  }

  /** `r` is the root of `data`. */
  ghost predicate IsRootOf<T>(p: PairHash, data: seq<T>, hash: T -> H256, r: H256) {
    exists t :: TreeOf(p, data, hash, t) && Root(t) == r
  }

  // ---- Proofs ------------------------------------------------------------------------------

  /** The node next to `i` under one parent. */
  function SiblingIndex(i: nat): nat {
    if i % 2 == 0 then i + 1 else i - 1
  }

  /** The pair hashed at one step of verification: the running hash goes left at even indices. */
  function StepPair(current: H256, sibling: H256, i: nat): Pair {
    if i % 2 == 0 then (current, sibling) else (sibling, current)
  }

  /** Siblings met on the way up from node `i` of level `l`. */
  function Siblings(t: seq<Level>, l: nat, i: nat): Level
    decreases |t| - l
  {
    if l + 1 >= |t| || SiblingIndex(i) >= |t[l]| then []
    else [t[l][SiblingIndex(i)]] + Siblings(t, l + 1, i / 2)
  }

  /** A node and its sibling make the parent, half as far to the right. */
  lemma {:induction false} Climb(p: PairHash, t: seq<Level>, l: nat, i: nat)
    requires Stacked(p, t) && l < |t| - 1 && i < |t[l]|
    ensures SiblingIndex(i) < |t[l]| && 2 * (i / 2) + 1 < |t[l]| && i / 2 < |t[l + 1]|
    ensures StepPair(t[l][i], t[l][SiblingIndex(i)], i) == PairAt(t[l], i / 2)
    ensures t[l + 1][i / 2] == Combine(p, PairAt(t[l], i / 2))
    ensures t[l + 1][i / 2] == if i % 2 == 0 then p(t[l][i], t[l][i + 1]) else p(t[l][i - 1], t[l][i])
  {
    assert LiesAbove(p, t, l);
    assert t[l + 1][i / 2] == PairUp(p, t[l])[i / 2];
  }

  /** `MerkleTree::proof`: nothing for an index outside the padded leaf level; otherwise all
      sibling accesses are in bounds. */
  method Proof(ghost p: PairHash, tree: MerkleTree, index: nat) returns (proofList: Level)
    requires WellBuilt(p, tree.treeList)
    ensures proofList == if index >= |tree.treeList[0]| then [] else Siblings(tree.treeList, 0, index)
  {
    var t := tree.treeList;
    proofList := [];
    if index >= |t[0]| {
      return;
    }
    hide WellBuilt, LiesAbove, Siblings;
    var i, level := index, 0;
    while level < |t| - 1
      invariant 0 <= level < |t| && 0 <= i < |t[level]|
      invariant Siblings(t, 0, index) == proofList + Siblings(t, level, i)
    {
      SiblingsClimb(p, t, level, i);
      ghost var before := proofList;
      if i % 2 == 0 {
        proofList := proofList + [t[level][i + 1]];
      } else {
        proofList := proofList + [t[level][i - 1]];
      }
      assert proofList == before + [t[level][SiblingIndex(i)]];
      assert proofList + Siblings(t, level + 1, i / 2) == before + Siblings(t, level, i);
      i, level := i / 2, level + 1;
    }
    assert Siblings(t, level, i) == [] by {
      NoSiblings(t, i);
    }
  }

  lemma {:induction false} SiblingsClimb(p: PairHash, t: seq<Level>, l: nat, i: nat)
    requires WellBuilt(p, t) && l < |t| - 1 && i < |t[l]|
    ensures SiblingIndex(i) < |t[l]| && i / 2 < |t[l + 1]|
    ensures Siblings(t, l, i) == [t[l][SiblingIndex(i)]] + Siblings(t, l + 1, i / 2)
  {
    Climb(p, t, l, i);
  }

  lemma {:induction false} NoSiblings(t: seq<Level>, i: nat)
    requires t != []
    ensures Siblings(t, |t| - 1, i) == []
  {
  }

  function Fold(p: PairHash, current: H256, proofList: Level, i: nat): H256
    decreases |proofList|
  {
    if proofList == [] then current
    else Fold(p, Combine(p, StepPair(current, proofList[0], i)), proofList[1..], i / 2)
  }

  predicate Accepts(p: PairHash, root: H256, datum: H256, proofList: Level, index: nat, leafSize: nat) {
    index < leafSize && Fold(p, datum, proofList, index) == root
  }

  /** The free function `verify`. */
  method Verify(p: PairHash, root: H256, datum: H256, proofList: Level, index: nat, leafSize: nat)
    returns (ok: bool)
    ensures ok <==> Accepts(p, root, datum, proofList, index, leafSize)
    ensures index >= leafSize ==> !ok
    ensures proofList == [] ==> (ok <==> index < leafSize && datum == root)
  {
    if index >= leafSize || leafSize <= 0 {
      return false;
    }
    var currentHash, proofIndex, datumIndex := datum, 0, index;
    while proofIndex < |proofList|
      invariant 0 <= proofIndex <= |proofList| && datumIndex >= 0
      invariant Fold(p, datum, proofList, index) == Fold(p, currentHash, proofList[proofIndex..], datumIndex)
    {
      assert proofList[proofIndex..][1..] == proofList[proofIndex + 1..];
      if datumIndex % 2 == 0 {
        currentHash := Combine(p, (currentHash, proofList[proofIndex]));
      } else {
        currentHash := Combine(p, (proofList[proofIndex], currentHash));
      }
      proofIndex, datumIndex := proofIndex + 1, datumIndex / 2;
    }
    ok := currentHash == root;
  }

  // ---- Exact depth -------------------------------------------------------------------------

  function CeilLog2(n: nat): nat
    requires n > 0
  {
    if n == 1 then 0 else 1 + CeilLog2((n + 1) / 2)
  }

  function Pow2(k: nat): nat {
    if k == 0 then 1 else 2 * Pow2(k - 1)
  }

  /** `CeilLog2(n)` is the least k with n <= 2^k. */
  lemma {:induction false} CeilLog2IsExact(n: nat)
    requires n > 0
    ensures n <= Pow2(CeilLog2(n))
    ensures CeilLog2(n) > 0 ==> Pow2(CeilLog2(n) - 1) < n
  {
    if n > 1 {
      CeilLog2IsExact((n + 1) / 2);
    }
  }

  /** The number of levels above one that was padded from `m` nodes. */
  lemma {:induction false} Depth(p: PairHash, t: seq<Level>, l: nat, m: nat)
    requires WellBuilt(p, t) && l < |t| && m > 0 && |t[l]| == PadLength(m)
    ensures |t| - 1 - l == CeilLog2(m)
    decreases |t| - l
  {
    if l < |t| - 1 {
      assert LiesAbove(p, t, l);
      Depth(p, t, l + 1, |t[l]| / 2);
      assert |t[l]| / 2 == (m + 1) / 2;
    }
  }

  // ---- Round trip --------------------------------------------------------------------------

  lemma {:induction false} FoldClimbs(p: PairHash, t: seq<Level>, l: nat, i: nat)
    requires WellBuilt(p, t) && l < |t| && i < |t[l]|
    ensures |Siblings(t, l, i)| == |t| - 1 - l
    ensures Fold(p, t[l][i], Siblings(t, l, i), i) == t[|t| - 1][0]
    decreases |t| - l
  {
    if l < |t| - 1 {
      Climb(p, t, l, i);
      FoldClimbs(p, t, l + 1, i / 2);
      assert Siblings(t, l, i)[1..] == Siblings(t, l + 1, i / 2);
    }
  }

  /** Every datum of a non-empty list verifies with its own proof, whose length is exactly
      the logarithm of the number of data, rounded up. */
  lemma {:induction false} RoundTrip<T>(p: PairHash, data: seq<T>, hash: T -> H256, tree: MerkleTree, i: nat)
    requires TreeOf(p, data, hash, tree) && i < |data|
    ensures tree.treeList != [] && i < |tree.treeList[0]| && tree.treeList[|tree.treeList| - 1] != []
    ensures |Siblings(tree.treeList, 0, i)| == CeilLog2(|data|)
    ensures Accepts(p, Root(tree), hash(data[i]), Siblings(tree.treeList, 0, i), i, |data|)
  {
    var t := tree.treeList;
    Depth(p, t, 0, |data|);
    FoldClimbs(p, t, 0, i);
    assert t[0][i] == LeafHashes(data, hash)[i];
  }

  /** A node that only pads the leaf level has a proof that folds to the root, and is refused with it for
      its index alone. */
  lemma {:induction false} PaddingIsRefused<T>(p: PairHash, data: seq<T>, hash: T -> H256, tree: MerkleTree, i: nat,
        n: nat)
    requires TreeOf(p, data, hash, tree) && data != [] && |data| <= i < |tree.treeList[0]|
    ensures tree.treeList[0][i] == hash(data[|data| - 1]) && tree.treeList[|tree.treeList| - 1] != []
    ensures Fold(p, hash(data[|data| - 1]), Siblings(tree.treeList, 0, i), i) == Root(tree)
    ensures Accepts(p, Root(tree), hash(data[|data| - 1]), Siblings(tree.treeList, 0, i), i, n) <==> i < n
    ensures !Accepts(p, Root(tree), hash(data[|data| - 1]), Siblings(tree.treeList, 0, i), i, |data|)
  {
    FoldClimbs(p, tree.treeList, 0, i);
  }

  /** The leaf level starts with the hashes of the data, and the root of nothing is zero. */
  lemma {:induction false} Leaves<T>(p: PairHash, data: seq<T>, hash: T -> H256, tree: MerkleTree)
    requires TreeOf(p, data, hash, tree)
    ensures data == [] ==> Root(tree) == H256(seq(32, _ => 0))
    ensures data != [] ==> |data| <= |tree.treeList[0]| && tree.treeList[|tree.treeList| - 1] != []
    ensures data != [] ==> Root(tree) == tree.treeList[|tree.treeList| - 1][0]
    ensures forall i :: 0 <= i < |data| ==> tree.treeList[0][i] == hash(data[i])
  {
    if data != [] {
      assert forall i :: 0 <= i < |data| ==> tree.treeList[0][i] == LeafHashes(data, hash)[i];
    }
  }

  // ---- Soundness ---------------------------------------------------------------------------

  /** The pairs hashed while building a tree. */
  ghost function TreePairs(t: seq<Level>): set<Pair> {
    set l, k | 0 <= l < |t| - 1 && 0 <= k < |t[l]| / 2 :: PairAt(t[l], k)
  }

  /** The pairs hashed while verifying a proof. */
  ghost function FoldPairs(p: PairHash, current: H256, proofList: Level, i: nat): set<Pair>
    decreases |proofList|
  {
    if proofList == [] then {}
    else
      var x := StepPair(current, proofList[0], i);
      {x} + FoldPairs(p, Combine(p, x), proofList[1..], i / 2)
  }

  ghost predicate Separate(p: PairHash, x: Pair, y: Pair) {
    Combine(p, x) == Combine(p, y) ==> x == y
  }

  /** No two different pairs among `pairs` have the same digest. */
  ghost predicate CollisionFree(p: PairHash, pairs: set<Pair>) {
    forall x, y {:trigger Separate(p, x, y)} :: x in pairs && y in pairs ==> Separate(p, x, y)
  }

  lemma {:induction false} FoldDescends(p: PairHash, t: seq<Level>, l: nat, current: H256, proofList: Level, i: nat)
    requires WellBuilt(p, t) && l < |t| && i < |t[l]| && |proofList| == |t| - 1 - l
    requires CollisionFree(p, TreePairs(t) + FoldPairs(p, current, proofList, i))
    requires Fold(p, current, proofList, i) == t[|t| - 1][0]
    ensures current == t[l][i] && proofList == Siblings(t, l, i)
    decreases |t| - l
  {
    if l < |t| - 1 {
      Climb(p, t, l, i);
      var x := StepPair(current, proofList[0], i);
      FoldDescends(p, t, l + 1, Combine(p, x), proofList[1..], i / 2);
      assert PairAt(t[l], i / 2) in TreePairs(t);
      assert Separate(p, x, PairAt(t[l], i / 2));
      assert proofList == [proofList[0]] + proofList[1..];
    }
  }

  /** A proof of the tree's depth is accepted at index `i` for exactly one datum, the i-th leaf,
      and only when it is the tree's own proof. */
  lemma {:induction false} Soundness<T>(p: PairHash, data: seq<T>, hash: T -> H256, tree: MerkleTree,
                     datum: H256, proofList: Level, i: nat)
    requires TreeOf(p, data, hash, tree)
    requires i < |data| && |proofList| == CeilLog2(|data|)
    requires CollisionFree(p, TreePairs(tree.treeList) + FoldPairs(p, datum, proofList, i))
    ensures tree.treeList != [] && tree.treeList[|tree.treeList| - 1] != []
    ensures Accepts(p, Root(tree), datum, proofList, i, |data|) <==>
            datum == hash(data[i]) && proofList == Siblings(tree.treeList, 0, i)
  {
    var t := tree.treeList;
    RoundTrip(p, data, hash, tree, i);
    FoldClimbs(p, t, 0, i);
    if Accepts(p, Root(tree), datum, proofList, i, |data|) {
      FoldDescends(p, t, 0, datum, proofList, i);
      assert t[0][i] == LeafHashes(data, hash)[i];
    }
  }

  // ---- Other proof lengths -----------------------------------------------------------------

  ghost predicate NotALeaf(p: PairHash, leaves: Level, x: Pair) {
    Combine(p, x) !in leaves
  }

  /** No two of `pairs` collide, and none digests to a leaf. */
  ghost predicate Clean(p: PairHash, leaves: Level, pairs: set<Pair>) {
    && CollisionFree(p, pairs)
    && forall x {:trigger NotALeaf(p, leaves, x)} :: x in pairs ==> NotALeaf(p, leaves, x)
  }

  /** Hashing up from a node of the tree hashes pairs of the tree. */
  lemma {:induction false} ClimbPairs(p: PairHash, t: seq<Level>, l: nat, i: nat)
    requires WellBuilt(p, t) && l < |t| && i < |t[l]|
    ensures FoldPairs(p, t[l][i], Siblings(t, l, i), i) <= TreePairs(t)
    decreases |t| - l
  {
    if l < |t| - 1 {
      Climb(p, t, l, i);
      ClimbPairs(p, t, l + 1, i / 2);
      assert Siblings(t, l, i)[1..] == Siblings(t, l + 1, i / 2);
      assert PairAt(t[l], i / 2) in TreePairs(t);
    }
  }

  /** A proof of any length k below the depth is accepted for an inner node, the one k levels below
      the root at the same index, and hashes nothing that the tree does not. */
  lemma {:induction false} ShortProofAccepts<T>(p: PairHash, data: seq<T>, hash: T -> H256, tree: MerkleTree,
        k: nat, i: nat)
    returns (proofList: Level)
    requires TreeOf(p, data, hash, tree) && data != [] && k < CeilLog2(|data|) && i < |data|
    requires k < |tree.treeList| ==> i < |tree.treeList[|tree.treeList| - 1 - k]|
    ensures |tree.treeList| == CeilLog2(|data|) + 1 && tree.treeList[|tree.treeList| - 1] != []
    ensures var t := tree.treeList;
      var datum := t[|t| - 1 - k][i];
      && |proofList| == k && Accepts(p, Root(tree), datum, proofList, i, |data|)
      && FoldPairs(p, datum, proofList, i) <= TreePairs(t)
      && exists x :: x in TreePairs(t) && datum == Combine(p, x)
  {
    var t := tree.treeList;
    Depth(p, t, 0, |data|);
    var l := |t| - 1 - k;
    proofList := Siblings(t, l, i);
    FoldClimbs(p, t, l, i);
    ClimbPairs(p, t, l, i);
    InnerIsDigest(p, t, l, i);
  }

  /** Every node above the leaves is the digest of a pair of the tree. */
  lemma {:induction false} InnerIsDigest(p: PairHash, t: seq<Level>, l: nat, i: nat)
    requires WellBuilt(p, t) && 0 < l < |t| && i < |t[l]|
    ensures exists x :: x in TreePairs(t) && t[l][i] == Combine(p, x)
  {
    assert LiesAbove(p, t, l - 1);
    var k := if i < |t[l - 1]| / 2 then i else |t[l - 1]| / 2 - 1;
    assert t[l][i] == PairUp(p, t[l - 1])[k];
    assert PairAt(t[l - 1], k) in TreePairs(t);
  }

  /** Folding a proof is folding its front and then its rest. */
  lemma {:induction false} FoldSplit(p: PairHash, current: H256, proofList: Level, i: nat, k: nat)
    returns (mid: H256, at: nat)
    requires k <= |proofList|
    ensures at <= i
    ensures Fold(p, current, proofList, i) == Fold(p, mid, proofList[k..], at)
    ensures FoldPairs(p, mid, proofList[k..], at) <= FoldPairs(p, current, proofList, i)
    ensures k == 0 ==> mid == current
    ensures k > 0 ==> exists x :: x in FoldPairs(p, current, proofList, i) && mid == Combine(p, x)
    decreases k
  {
    if k == 0 {
      mid, at := current, i;
      assert proofList[0..] == proofList;
    } else {
      var x := StepPair(current, proofList[0], i);
      mid, at := FoldSplit(p, Combine(p, x), proofList[1..], i / 2, k - 1);
      assert proofList[1..][k - 1..] == proofList[k..];
    }
  }

  /** A proof longer than the depth is accepted for nothing, as long as no pair hashed in it digests
      to a leaf. */
  lemma {:induction false} LongProofRefused<T>(p: PairHash, data: seq<T>, hash: T -> H256, tree: MerkleTree,
        datum: H256, proofList: Level, i: nat)
    requires TreeOf(p, data, hash, tree) && i < |data| && |proofList| > CeilLog2(|data|)
    requires Clean(p, tree.treeList[0], TreePairs(tree.treeList) + FoldPairs(p, datum, proofList, i))
    ensures !Accepts(p, Root(tree), datum, proofList, i, |data|)
  {
    var t := tree.treeList;
    Depth(p, t, 0, |data|);
    var k := |proofList| - (|t| - 1);
    var mid, at := FoldSplit(p, datum, proofList, i, k);
    var x :| x in FoldPairs(p, datum, proofList, i) && mid == Combine(p, x);
    assert NotALeaf(p, t[0], x);
    if Accepts(p, Root(tree), datum, proofList, i, |data|) {
      FoldDescends(p, t, 0, mid, proofList[k..], at);
    }
  }

  /** What a verifier that fixes the proof length at k may conclude from acceptance. */
  ghost predicate OnlyMembersAt<T>(p: PairHash, data: seq<T>, hash: T -> H256, tree: MerkleTree, k: nat)
    requires TreeOf(p, data, hash, tree) && data != []
  {
    forall datum, proofList, i {:trigger Accepts(p, Root(tree), datum, proofList, i, |data|)} ::
      |proofList| == k && 0 <= i < |data| && Accepts(p, Root(tree), datum, proofList, i, |data|)
      && Clean(p, tree.treeList[0], TreePairs(tree.treeList) + FoldPairs(p, datum, proofList, i))
      ==> datum == hash(data[i])
  }

  /** Acceptance of a proof of length k means membership exactly when k is at least the depth. */
  lemma {:induction false} MembershipIffDepth<T>(p: PairHash, data: seq<T>, hash: T -> H256, tree: MerkleTree, k: nat)
    requires TreeOf(p, data, hash, tree) && data != []
    requires Clean(p, tree.treeList[0], TreePairs(tree.treeList))
    ensures OnlyMembersAt(p, data, hash, tree, k) <==> k >= CeilLog2(|data|)
  {
    var t := tree.treeList;
    if k >= CeilLog2(|data|) {
      forall datum, proofList, i | |proofList| == k && 0 <= i < |data|
        && Clean(p, t[0], TreePairs(t) + FoldPairs(p, datum, proofList, i))
        && Accepts(p, Root(tree), datum, proofList, i, |data|)
        ensures datum == hash(data[i])
      {
        if k == CeilLog2(|data|) {
          Soundness(p, data, hash, tree, datum, proofList, i);
        } else {
          LongProofRefused(p, data, hash, tree, datum, proofList, i);
        }
      }
    } else {
      Depth(p, t, 0, |data|);
      assert LiesAbove(p, t, |t| - 2 - k);
      InnerIsDigest(p, t, |t| - 1 - k, 0);
      var datum := t[|t| - 1 - k][0];
      var proofList := ShortProofAccepts(p, data, hash, tree, k, 0);
      assert TreePairs(t) + FoldPairs(p, datum, proofList, 0) == TreePairs(t);
      var x :| x in TreePairs(t) && datum == Combine(p, x);
      assert NotALeaf(p, t[0], x) && t[0][0] == hash(data[0]);
      assert Accepts(p, Root(tree), datum, proofList, 0, |data|);
    }
  }

  // ---- Binding -----------------------------------------------------------------------------

  lemma {:induction false} SameShape(p: PairHash, t: seq<Level>, u: seq<Level>, l: nat)
    requires WellBuilt(p, t) && WellBuilt(p, u) && |t[0]| == |u[0]| && l < |t| && l < |u|
    ensures |t[l]| == |u[l]|
  {
    if l > 0 {
      SameShape(p, t, u, l - 1);
      assert LiesAbove(p, t, l - 1) && LiesAbove(p, u, l - 1);
    }
  }

  lemma {:induction false} PairsDecide(a: Level, b: Level)
    requires |a| == |b| && |a| % 2 == 0
    requires forall k :: 0 <= k < |a| / 2 ==> PairAt(a, k) == PairAt(b, k)
    ensures a == b
  {
    forall i | 0 <= i < |a|
      ensures a[i] == b[i]
    {
      assert PairAt(a, i / 2) == PairAt(b, i / 2);
      assert i == 2 * (i / 2) || i == 2 * (i / 2) + 1;
    }
  }

  lemma {:induction false} PairInTree(p: PairHash, t: seq<Level>, l: nat, q: nat)
    requires WellBuilt(p, t) && l < |t| - 1 && 2 * q + 1 < |t[l]|
    ensures q < |t[l + 1]| && t[l + 1][q] == Combine(p, PairAt(t[l], q)) && PairAt(t[l], q) in TreePairs(t)
  {
    Climb(p, t, l, 2 * q);
    assert 2 * q / 2 == q && q < |t[l]| / 2;
  }

  lemma {:induction false} EvenBelow(p: PairHash, t: seq<Level>, l: nat)
    requires WellBuilt(p, t) && l < |t| - 1
    ensures |t[l]| % 2 == 0
  {
    assert LiesAbove(p, t, l);
  }

  /** Equal levels have equal levels below them. */
  lemma {:induction false} LevelBinds(p: PairHash, t: seq<Level>, u: seq<Level>, l: nat)
    requires WellBuilt(p, t) && WellBuilt(p, u) && l < |t| - 1 && l < |u| - 1
    requires |t[l]| == |u[l]| && t[l + 1] == u[l + 1]
    requires CollisionFree(p, TreePairs(t) + TreePairs(u))
    ensures t[l] == u[l]
  {
    hide WellBuilt, TreePairs, PairAt, Combine;
    EvenBelow(p, t, l);
    var a, b := t[l], u[l];
    forall k | 0 <= k < |a| / 2
      ensures PairAt(a, k) == PairAt(b, k)
    {
      PairInTree(p, t, l, k);
      PairInTree(p, u, l, k);
      assert Separate(p, PairAt(a, k), PairAt(b, k));
    }
    PairsDecide(a, b);
  }

  lemma {:induction false} RootBinds(p: PairHash, t: seq<Level>, u: seq<Level>, l: nat)
    requires WellBuilt(p, t) && WellBuilt(p, u) && |t| == |u| && |t[0]| == |u[0]| && l < |t|
    requires t[|t| - 1][0] == u[|u| - 1][0]
    requires CollisionFree(p, TreePairs(t) + TreePairs(u))
    ensures t[l] == u[l]
    decreases |t| - l
  {
    if l < |t| - 1 {
      RootBinds(p, t, u, l + 1);
      SameShape(p, t, u, l);
      LevelBinds(p, t, u, l);
    }
  }

  /** A tree is determined by its leaves. */
  lemma {:induction false} LevelsDetermined(p: PairHash, t: seq<Level>, u: seq<Level>, l: nat)
    requires WellBuilt(p, t) && WellBuilt(p, u) && t[0] == u[0] && l < |t| && l < |u|
    ensures t[l] == u[l]
  {
    hide Pad, PairUp;
    if l > 0 {
      LevelsDetermined(p, t, u, l - 1);
      assert LiesAbove(p, t, l - 1) && LiesAbove(p, u, l - 1);
      assert t[l] == Pad(PairUp(p, t[l - 1])) && u[l] == Pad(PairUp(p, u[l - 1]));
    }
  }

  lemma {:induction false} SameDepth<S, T>(p: PairHash, a: seq<S>, f: S -> H256, t: MerkleTree, b: seq<T>,
        g: T -> H256, u: MerkleTree)
    requires TreeOf(p, a, f, t) && TreeOf(p, b, g, u) && |a| == |b| > 0
    ensures |t.treeList| == |u.treeList| && |t.treeList[0]| == |u.treeList[0]|
  {
    Depth(p, t.treeList, 0, |a|);
    Depth(p, u.treeList, 0, |b|);
  }

  /** Two lists of one length have the same root exactly when they have the same leaf hashes. */
  lemma {:induction false} Binding<S, T>(p: PairHash, a: seq<S>, f: S -> H256, t: MerkleTree, b: seq<T>,
        g: T -> H256, u: MerkleTree)
    requires TreeOf(p, a, f, t) && TreeOf(p, b, g, u) && |a| == |b| > 0
    requires CollisionFree(p, TreePairs(t.treeList) + TreePairs(u.treeList))
    ensures Root(t) == Root(u) <==> LeafHashes(a, f) == LeafHashes(b, g)
  {
    SameDepth(p, a, f, t, b, g, u);
    var x, y := LeafHashes(a, f), LeafHashes(b, g);
    if Root(t) == Root(u) {
      RootBinds(p, t.treeList, u.treeList, 0);
      assert x == Pad(x)[..|x|] == Pad(y)[..|y|] == y;
    }
    if x == y {
      LevelsDetermined(p, t.treeList, u.treeList, |t.treeList| - 1);
    }
  }

  // ---- Lists of different lengths ----------------------------------------------------------

  /** How many nodes m nodes make one level up. */
  function Parents(m: nat): nat {
    (m + 1) / 2
  }

  /** The datum that position `j` of the perfect tree of m data stands for: repetition of last nodes
      makes every list the leaves of a perfect tree. */
  function Source(m: nat, j: nat): (k: nat)
    requires m > 0
    ensures k < m
  {
    if m == 1 then 0
    else
      var k := 2 * Source(Parents(m), j / 2) + j % 2;
      if k < m then k else m - 1
  }

  /** A level padded from m nodes. */
  ghost predicate Padded(level: Level, m: nat) {
    m > 0 && |level| == PadLength(m) && (|level| > m ==> level[m] == level[m - 1])
  }

  ghost predicate SameAt(a: Level, m: nat, b: Level, n: nat, j: nat)
    requires 0 < m <= |a| && 0 < n <= |b|
  {
    a[Source(m, j)] == b[Source(n, j)]
  }

  /** Two levels are the same when spread out to a perfect tree of height d. */
  ghost predicate SameSpread(a: Level, m: nat, b: Level, n: nat, d: nat)
    requires 0 < m <= |a| && 0 < n <= |b|
  {
    forall j {:trigger SameAt(a, m, b, n, j)} :: 0 <= j < Pow2(d) ==> SameAt(a, m, b, n, j)
  }

  /** The children of position j are positions 2j and 2j + 1. */
  lemma {:induction false} Halves(p: PairHash, t: seq<Level>, l: nat, m: nat, j: nat)
    requires WellBuilt(p, t) && l < |t| - 1 && Padded(t[l], m) && m > 1
    ensures Padded(t[l + 1], Parents(m)) && 0 < Parents(m) <= |t[l + 1]| && m <= |t[l]|
    ensures var q := Source(Parents(m), j);
      && 2 * q + 1 < |t[l]|
      && t[l + 1][q] == Combine(p, PairAt(t[l], q)) && PairAt(t[l], q) in TreePairs(t)
      && PairAt(t[l], q) == (t[l][Source(m, 2 * j)], t[l][Source(m, 2 * j + 1)])
  {
    hide WellBuilt, Stacked, Source, PairUp, Combine;
    PaddedUp(p, t, l, m);
    SourceChildren(m, j);
    PairInTree(p, t, l, Source(Parents(m), j));
  }

  lemma {:induction false} PaddedUp(p: PairHash, t: seq<Level>, l: nat, m: nat)
    requires WellBuilt(p, t) && l < |t| - 1 && Padded(t[l], m) && m > 1
    ensures Padded(t[l + 1], Parents(m)) && 0 < Parents(m) <= |t[l + 1]| && |t[l]| == 2 * Parents(m)
  {
    hide PairUp;
    assert LiesAbove(p, t, l);
  }

  lemma {:induction false} SourceChildren(m: nat, j: nat)
    requires m > 1
    ensures var q := Source(Parents(m), j);
      && Source(m, 2 * j) == 2 * q
      && Source(m, 2 * j + 1) == if 2 * q + 1 < m then 2 * q + 1 else 2 * q
  {
    assert (2 * j) / 2 == j && (2 * j + 1) / 2 == j && (2 * j) % 2 == 0 && (2 * j + 1) % 2 == 1;
  }

  /** Two positions agree exactly when both their children do. */
  lemma {:induction false} ChildrenDecide(p: PairHash, t: seq<Level>, u: seq<Level>, l: nat, m: nat, n: nat, j: nat)
    requires WellBuilt(p, t) && WellBuilt(p, u) && l < |t| - 1 && l < |u| - 1
    requires Padded(t[l], m) && Padded(u[l], n) && m > 1 && n > 1
    requires CollisionFree(p, TreePairs(t) + TreePairs(u))
    ensures Padded(t[l + 1], Parents(m)) && 0 < Parents(m) <= |t[l + 1]| && m <= |t[l]|
    ensures Padded(u[l + 1], Parents(n)) && 0 < Parents(n) <= |u[l + 1]| && n <= |u[l]|
    ensures SameAt(t[l + 1], Parents(m), u[l + 1], Parents(n), j) <==>
      SameAt(t[l], m, u[l], n, 2 * j) && SameAt(t[l], m, u[l], n, 2 * j + 1)
  {
    hide WellBuilt, Source, Padded, Parents, TreePairs, Combine;
    Halves(p, t, l, m, j);
    Halves(p, u, l, n, j);
    assert Separate(p, PairAt(t[l], Source(Parents(m), j)), PairAt(u[l], Source(Parents(n), j)));
  }

  /** A level and the one above agree when spread out, or neither does. */
  lemma {:induction false} SpreadClimbs(p: PairHash, t: seq<Level>, u: seq<Level>, l: nat, m: nat, n: nat, d: nat)
    requires WellBuilt(p, t) && WellBuilt(p, u) && l < |t| - 1 && l < |u| - 1
    requires Padded(t[l], m) && Padded(u[l], n) && m > 1 && n > 1 && d > 0
    requires CollisionFree(p, TreePairs(t) + TreePairs(u))
    ensures Padded(t[l + 1], Parents(m)) && Padded(u[l + 1], Parents(n))
    ensures SameSpread(t[l], m, u[l], n, d) <==>
      SameSpread(t[l + 1], Parents(m), u[l + 1], Parents(n), d - 1)
  {
    hide WellBuilt, SameAt, CollisionFree, Source, Padded, Parents;
    ChildrenDecide(p, t, u, l, m, n, 0);
    var a, b := t[l + 1], u[l + 1];
    if SameSpread(t[l], m, u[l], n, d) {
      forall j | 0 <= j < Pow2(d - 1)
        ensures SameAt(a, Parents(m), b, Parents(n), j)
      {
        ChildrenDecide(p, t, u, l, m, n, j);
        assert SameAt(t[l], m, u[l], n, 2 * j) && SameAt(t[l], m, u[l], n, 2 * j + 1);
      }
    }
    if SameSpread(a, Parents(m), b, Parents(n), d - 1) {
      forall j | 0 <= j < Pow2(d)
        ensures SameAt(t[l], m, u[l], n, j)
      {
        ChildrenDecide(p, t, u, l, m, n, j / 2);
        assert SameAt(a, Parents(m), b, Parents(n), j / 2);
        assert j == 2 * (j / 2) || j == 2 * (j / 2) + 1;
      }
    }
  }

  lemma {:induction false} SpreadDecides(p: PairHash, t: seq<Level>, u: seq<Level>, l: nat, m: nat, n: nat)
    requires WellBuilt(p, t) && WellBuilt(p, u) && |t| == |u| && l < |t|
    requires Padded(t[l], m) && Padded(u[l], n) && CeilLog2(m) == CeilLog2(n) == |t| - 1 - l
    requires CollisionFree(p, TreePairs(t) + TreePairs(u))
    ensures t[|t| - 1][0] == u[|u| - 1][0] <==> SameSpread(t[l], m, u[l], n, CeilLog2(m))
    decreases |t| - l
  {
    if l < |t| - 1 {
      SpreadClimbs(p, t, u, l, m, n, CeilLog2(m));
      SpreadDecides(p, t, u, l + 1, Parents(m), Parents(n));
    } else {
      assert m == 1 && n == 1 && Pow2(0) == 1;
      assert SameAt(t[l], 1, u[l], 1, 0) <==> t[l][0] == u[l][0];
    }
  }

  /** On the way down from equal roots the leftmost nodes are equal. */
  lemma {:induction false} SpinesMeet(p: PairHash, t: seq<Level>, u: seq<Level>, j: nat)
    requires WellBuilt(p, t) && WellBuilt(p, u) && j < |t| && j < |u|
    requires t[|t| - 1][0] == u[|u| - 1][0] && CollisionFree(p, TreePairs(t) + TreePairs(u))
    ensures t[|t| - 1 - j] != [] && u[|u| - 1 - j] != []
    ensures t[|t| - 1 - j][0] == u[|u| - 1 - j][0]
  {
    if j > 0 {
      SpinesMeet(p, t, u, j - 1);
      var l, k := |t| - 1 - j, |u| - 1 - j;
      assert LiesAbove(p, t, l) && LiesAbove(p, u, k);
      Climb(p, t, l, 0);
      Climb(p, u, k, 0);
      assert PairAt(t[l], 0) in TreePairs(t) && PairAt(u[k], 0) in TreePairs(u);
      assert Separate(p, PairAt(t[l], 0), PairAt(u[k], 0));
    }
  }

  lemma {:induction false} NotHigher(p: PairHash, t: seq<Level>, u: seq<Level>)
    requires WellBuilt(p, t) && WellBuilt(p, u) && t[|t| - 1][0] == u[|u| - 1][0]
    requires Clean(p, t[0] + u[0], TreePairs(t) + TreePairs(u))
    ensures |u| <= |t|
  {
    if |t| < |u| {
      assert LiesAbove(p, u, |u| - |t| - 1);
      InnerIsDigest(p, u, |u| - |t|, 0);
      var x :| x in TreePairs(u) && u[|u| - |t|][0] == Combine(p, x);
      assert NotALeaf(p, t[0] + u[0], x);
      SpinesMeet(p, t, u, |t| - 1);
    }
  }

  /** Padding does not change the spread. */
  lemma {:induction false} SpreadOfLeaves(a: Level, b: Level, d: nat)
    requires a != [] && b != []
    ensures SameSpread(Pad(a), |a|, Pad(b), |b|, d) <==> SameSpread(a, |a|, b, |b|, d)
  {
    assert forall j: nat :: SameAt(Pad(a), |a|, Pad(b), |b|, j) <==> SameAt(a, |a|, b, |b|, j);
  }

  /** Two lists, of whatever lengths, have the same root exactly when their trees are equally high and
      their leaf hashes agree when spread out to the perfect tree of that height. */
  lemma {:induction false} SameRootIff<S, T>(p: PairHash, a: seq<S>, f: S -> H256, t: MerkleTree, b: seq<T>,
        g: T -> H256, u: MerkleTree)
    requires TreeOf(p, a, f, t) && TreeOf(p, b, g, u) && a != [] && b != []
    requires Clean(p, t.treeList[0] + u.treeList[0], TreePairs(t.treeList) + TreePairs(u.treeList))
    ensures Root(t) == Root(u) <==>
      && CeilLog2(|a|) == CeilLog2(|b|)
      && SameSpread(LeafHashes(a, f), |a|, LeafHashes(b, g), |b|, CeilLog2(|a|))
  {
    var x, y := t.treeList, u.treeList;
    Depth(p, x, 0, |a|);
    Depth(p, y, 0, |b|);
    if Root(t) == Root(u) {
      assert Clean(p, y[0] + x[0], TreePairs(y) + TreePairs(x)) by {
        assert TreePairs(y) + TreePairs(x) == TreePairs(x) + TreePairs(y);
        assert forall z :: NotALeaf(p, x[0] + y[0], z) ==> NotALeaf(p, y[0] + x[0], z);
      }
      NotHigher(p, x, y);
      NotHigher(p, y, x);
    }
    if CeilLog2(|a|) == CeilLog2(|b|) {
      SpreadDecides(p, x, y, 0, |a|, |b|);
      SpreadOfLeaves(LeafHashes(a, f), LeafHashes(b, g), CeilLog2(|a|));
    }
  }

  // ---- Which lengths can share a root ------------------------------------------------------

  /** The tree above a level. */
  function Built(p: PairHash, level: Level): (t: seq<Level>)
    requires level != [] && (|level| == 1 || |level| % 2 == 0)
    ensures t != [] && t[0] == level
    decreases |level|
  {
    if |level| == 1 then [level] else [level] + Built(p, Pad(PairUp(p, level)))
  }

  lemma {:induction false} StackBelow(p: PairHash, level: Level, rest: seq<Level>)
    requires WellBuilt(p, rest) && |level| > 1 && |level| % 2 == 0 && rest[0] == Pad(PairUp(p, level))
    ensures WellBuilt(p, [level] + rest)
  {
    hide PairUp, Pad;
    var t := [level] + rest;
    forall l | 0 <= l < |t| - 1
      ensures LiesAbove(p, t, l)
    {
      assert l > 0 ==> LiesAbove(p, rest, l - 1);
    }
  }

  lemma {:induction false} BuiltWell(p: PairHash, level: Level)
    requires level != [] && (|level| == 1 || |level| % 2 == 0)
    ensures WellBuilt(p, Built(p, level))
    decreases |level|
  {
    if |level| > 1 {
      BuiltWell(p, Pad(PairUp(p, level)));
      StackBelow(p, level, Built(p, Pad(PairUp(p, level))));
    }
  }

  /** What k levels of pairing make of equal leaves. */
  function Chain(p: PairHash, x: H256, k: nat): H256 {
    if k == 0 then x else Combine(p, (Chain(p, x, k - 1), Chain(p, x, k - 1)))
  }

  ghost function ChainPairs(p: PairHash, x: H256, d: nat): set<Pair> {
    set k | 0 <= k < d :: (Chain(p, x, k), Chain(p, x, k))
  }

  ghost predicate AllEqual(level: Level, x: H256) {
    forall i :: 0 <= i < |level| ==> level[i] == x
  }

  lemma {:induction false} EqualLeaves(p: PairHash, t: seq<Level>, x: H256, l: nat)
    requires WellBuilt(p, t) && AllEqual(t[0], x) && l < |t|
    ensures AllEqual(t[l], Chain(p, x, l))
  {
    if l > 0 {
      EqualLeaves(p, t, x, l - 1);
      assert LiesAbove(p, t, l - 1);
      PairsOfEqual(p, t[l - 1], Chain(p, x, l - 1));
    }
  }

  lemma {:induction false} PairsOfEqual(p: PairHash, level: Level, y: H256)
    requires AllEqual(level, y) && |level| > 1
    ensures AllEqual(Pad(PairUp(p, level)), Combine(p, (y, y)))
  {
    var up := PairUp(p, level);
    assert forall k :: 0 <= k < |up| ==> up[k] == Combine(p, PairAt(level, k)) && PairAt(level, k) == (y, y);
  }

  lemma {:induction false} EqualLeafPairs(p: PairHash, t: seq<Level>, x: H256)
    requires WellBuilt(p, t) && AllEqual(t[0], x)
    ensures TreePairs(t) <= ChainPairs(p, x, |t| - 1)
  {
    forall l, k | 0 <= l < |t| - 1 && 0 <= k < |t[l]| / 2
      ensures PairAt(t[l], k) in ChainPairs(p, x, |t| - 1)
    {
      EqualLeaves(p, t, x, l);
      assert PairAt(t[l], k) == (Chain(p, x, l), Chain(p, x, l));
    }
  }

  /** Trees `t` and `u` of the lists `a` and `b` have one root, and nothing in them collides. */
  ghost predicate SharesRoot<T>(p: PairHash, hash: T -> H256, a: seq<T>, t: MerkleTree, b: seq<T>, u: MerkleTree) {
    && a != [] && b != [] && TreeOf(p, a, hash, t) && TreeOf(p, b, hash, u) && Root(t) == Root(u)
    && Clean(p, t.treeList[0] + u.treeList[0], TreePairs(t.treeList) + TreePairs(u.treeList))
  }

  /** Lists of m and of n data can share a root without collision exactly when their trees are equally
      high; `x` is any datum whose repetition does not collide. */
  lemma {:induction false} LengthsShareRootIff<T>(p: PairHash, hash: T -> H256, x: T, m: nat, n: nat)
    requires m > 0 && n > 0 && Clean(p, [hash(x)], ChainPairs(p, hash(x), CeilLog2(m)))
    ensures (exists a, t, b, u :: |a| == m && |b| == n && SharesRoot(p, hash, a, t, b, u)) <==>
      CeilLog2(m) == CeilLog2(n)
  {
    if a, t, b, u :| |a| == m && |b| == n && SharesRoot(p, hash, a, t, b, u) {
      SameRootIff(p, a, hash, t, b, hash, u);
    }
    if CeilLog2(m) == CeilLog2(n) {
      var a, b := seq(m, _ => x), seq(n, _ => x);
      var t := EqualTree(p, a, hash, x);
      var u := EqualTree(p, b, hash, x);
      SameLeaf(p, hash(x), t.treeList[0] + u.treeList[0], ChainPairs(p, hash(x), CeilLog2(m)),
               TreePairs(t.treeList) + TreePairs(u.treeList));
      assert SharesRoot(p, hash, a, t, b, u);
    }
  }

  lemma {:induction false} SameLeaf(p: PairHash, x: H256, leaves: Level, pairs: set<Pair>, some: set<Pair>)
    requires Clean(p, [x], pairs) && AllEqual(leaves, x) && some <= pairs
    ensures Clean(p, leaves, some)
  {
    forall z | z in some
      ensures NotALeaf(p, leaves, z)
    {
      assert NotALeaf(p, [x], z) && x in [x];
    }
  }

  lemma {:induction false} EqualTop(p: PairHash, t: seq<Level>, x: H256)
    requires WellBuilt(p, t) && AllEqual(t[0], x)
    ensures t[|t| - 1][0] == Chain(p, x, |t| - 1) && TreePairs(t) <= ChainPairs(p, x, |t| - 1)
  {
    EqualLeaves(p, t, x, |t| - 1);
    EqualLeafPairs(p, t, x);
  }

  /** The tree of a list of one datum repeated. */
  lemma {:induction false} EqualTree<T>(p: PairHash, a: seq<T>, hash: T -> H256, x: T) returns (t: MerkleTree)
    requires a != [] && forall i :: 0 <= i < |a| ==> a[i] == x
    ensures TreeOf(p, a, hash, t) && Root(t) == Chain(p, hash(x), CeilLog2(|a|))
    ensures AllEqual(t.treeList[0], hash(x)) && TreePairs(t.treeList) <= ChainPairs(p, hash(x), CeilLog2(|a|))
  {
    hide AllEqual, TreePairs, ChainPairs, Stacked, PadLength, PairUp, Pad, CeilLog2, Chain;
    var leaves := Pad(LeafHashes(a, hash));
    EqualHashes(a, hash, x);
    BuiltWell(p, leaves);
    t := MerkleTree(Built(p, leaves));
    hide Built;
    Depth(p, t.treeList, 0, |a|);
    EqualTop(p, t.treeList, hash(x));
  }

  lemma {:induction false} EqualHashes<T>(a: seq<T>, hash: T -> H256, x: T)
    requires a != [] && forall i :: 0 <= i < |a| ==> a[i] == x
    ensures AllEqual(Pad(LeafHashes(a, hash)), hash(x))
    ensures var leaves := Pad(LeafHashes(a, hash)); leaves != [] && (|leaves| == 1 || |leaves| % 2 == 0)
  {
  }

  /** The case next to `Binding`, without any premise: an odd list longer than one has the tree of the
      list with its last datum repeated. */
  lemma {:induction false} RepeatedLastLeaf<T>(p: PairHash, data: seq<T>, hash: T -> H256, t: MerkleTree)
    requires |data| > 1 && |data| % 2 == 1
    ensures TreeOf(p, data, hash, t) <==> TreeOf(p, data + [data[|data| - 1]], hash, t)
  {
    var more := data + [data[|data| - 1]];
    assert LeafHashes(more, hash) == Pad(LeafHashes(data, hash));
  }
}
