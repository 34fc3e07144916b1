/** The block tree and the longest chain (src/blockchain/mod.rs). */
module Chains {
  import opened Hash
  import opened Types

  datatype Stored = Stored(block: Block, height: nat)

  /** The fields of the source's `Blockchain`. */
  datatype Chain = Chain(blocks: map<H256, Stored>, tip: H256)

  /** 000ff93a75a75895a351786dd7a188515173f6928a8af8c9baa4dcff268a4f0f */
  function GenesisDifficulty(): H256 {
    var upper: seq<u8> := [0x00, 0x0f, 0xf9, 0x3a, 0x75, 0xa7, 0x58, 0x95, 0xa3, 0x51, 0x78, 0x6d, 0xd7, 0xa1, 0x88, 0x51];
    var lower: seq<u8> := [0x51, 0x73, 0xf6, 0x92, 0x8a, 0x8a, 0xf8, 0xc9, 0xba, 0xa4, 0xdc, 0xff, 0x26, 0x8a, 0x4f, 0x0f];
    H256(upper + lower)
  }

  function Genesis(): Block {
    Block(Header(ZeroHash(), 0, GenesisDifficulty(), 0, ZeroHash()), [])
  }

  function GenesisHash(c: Crypto): H256 {
    BlockHash(c, Genesis())
  }

  function NewChain(c: Crypto): Chain {
    Chain(map[GenesisHash(c) := Stored(Genesis(), 0)], GenesisHash(c))
  }

  function ParentOf(ch: Chain, h: H256): H256
    requires h in ch.blocks
  {
    ch.blocks[h].block.head.parent
  }

  /** `Blockchain::insert`. */
  function Inserted(c: Crypto, ch: Chain, b: Block): Chain
    requires b.head.parent in ch.blocks && ch.tip in ch.blocks
  {
    var height := ch.blocks[b.head.parent].height + 1;
    Chain(ch.blocks[BlockHash(c, b) := Stored(b, height)],
          if height > ch.blocks[ch.tip].height then BlockHash(c, b) else ch.tip)
  }

  // ---- Premises on the blocks in play ------------------------------------------------------

  ghost predicate HeadersAgree(c: Crypto, a: Block, b: Block) {
    BlockHash(c, a) == BlockHash(c, b) ==> a.head == b.head
  }

  ghost predicate BodiesAgree(c: Crypto, a: Block, b: Block) {
    BlockHash(c, a) == BlockHash(c, b) ==> a == b
  }

  ghost predicate NonZero(c: Crypto, a: Block) {
    BlockHash(c, a) != ZeroHash()
  }

  /** Among the blocks `u`, which include genesis, equal hashes mean equal headers, and no hash is zero. */
  ghost predicate HeadersDistinct(c: Crypto, u: set<Block>) {
    && Genesis() in u
    && (forall a, b {:trigger HeadersAgree(c, a, b)} :: a in u && b in u ==> HeadersAgree(c, a, b))
    && (forall a {:trigger NonZero(c, a)} :: a in u ==> NonZero(c, a))
  }

  /** Among the blocks `u`, equal hashes mean equal blocks. */
  ghost predicate BodiesDistinct(c: Crypto, u: set<Block>) {
    forall a, b {:trigger BodiesAgree(c, a, b)} :: a in u && b in u ==> BodiesAgree(c, a, b)
  }

  // ---- The tree invariant ------------------------------------------------------------------

  /** The entry under `h` is a block of `u` with that hash, one above its parent unless genesis. */
  ghost predicate Linked(c: Crypto, u: set<Block>, ch: Chain, h: H256)
    requires h in ch.blocks
  {
    && ch.blocks[h].block in u
    && BlockHash(c, ch.blocks[h].block) == h
    && (h != GenesisHash(c) ==>
          && ParentOf(ch, h) in ch.blocks
          && ch.blocks[h].height == ch.blocks[ParentOf(ch, h)].height + 1)
  }

  ghost predicate NotAbove(ch: Chain, h: H256, height: nat)
    requires h in ch.blocks
  {
    ch.blocks[h].height <= height
  }

  ghost predicate Tree(c: Crypto, u: set<Block>, ch: Chain) {
    && GenesisHash(c) in ch.blocks && ch.blocks[GenesisHash(c)] == Stored(Genesis(), 0)
    && ch.tip in ch.blocks
    && (forall h {:trigger Linked(c, u, ch, h)} :: h in ch.blocks ==> Linked(c, u, ch, h))
    && (forall h {:trigger NotAbove(ch, h, ch.blocks[ch.tip].height)} ::
          h in ch.blocks ==> NotAbove(ch, h, ch.blocks[ch.tip].height))
  }

  lemma {:induction false} NewChainIsTree(c: Crypto, u: set<Block>)
    requires Genesis() in u
    ensures Tree(c, u, NewChain(c))
  {
  }

  /** The genesis parent is nobody's hash, so genesis is nobody's child's twin. */
  lemma {:induction false} GenesisHasNoParent(c: Crypto, u: set<Block>, ch: Chain)
    requires HeadersDistinct(c, u) && Tree(c, u, ch)
    ensures ZeroHash() !in ch.blocks
  {
    forall h | h in ch.blocks
      ensures h != ZeroHash()
    {
      assert Linked(c, u, ch, h);
      assert NonZero(c, ch.blocks[h].block);
    }
  }

  /** A block with a stored parent is not genesis, and under its hash sits its own header or nothing. */
  lemma {:induction false} HeaderUnderHash(c: Crypto, u: set<Block>, ch: Chain, b: Block)
    requires HeadersDistinct(c, u) && Tree(c, u, ch) && b in u
    ensures var h := BlockHash(c, b);
      && (h in ch.blocks ==> ch.blocks[h].block.head == b.head)
      && (b.head.parent in ch.blocks ==> h != GenesisHash(c))
      && (b.head.parent in ch.blocks && h in ch.blocks ==>
            ch.blocks[h].height == ch.blocks[b.head.parent].height + 1)
  {
    var h := BlockHash(c, b);
    GenesisHasNoParent(c, u, ch);
    if h in ch.blocks {
      assert Linked(c, u, ch, h);
      assert HeadersAgree(c, ch.blocks[h].block, b);
    }
  }

  /** Every height recorded before an insertion is recorded after it. */
  ghost predicate SameHeights(ch: Chain, ch': Chain) {
    forall h :: h in ch.blocks ==> h in ch'.blocks && ch'.blocks[h].height == ch.blocks[h].height
  }

  /** Insertion keeps the tree, never removes a key and never changes a height, even when it
      stores a second body under an old header. */
  lemma {:induction false} InsertKeepsTree(c: Crypto, u: set<Block>, ch: Chain, b: Block)
    requires HeadersDistinct(c, u) && Tree(c, u, ch) && b in u && b.head.parent in ch.blocks
    ensures Tree(c, u, Inserted(c, ch, b)) && SameHeights(ch, Inserted(c, ch, b))
    ensures Inserted(c, ch, b).blocks.Keys == ch.blocks.Keys + {BlockHash(c, b)}
  {
    var h, ch' := BlockHash(c, b), Inserted(c, ch, b);
    HeaderUnderHash(c, u, ch, b);
    forall g | g in ch'.blocks
      ensures Linked(c, u, ch', g) && NotAbove(ch', g, ch'.blocks[ch'.tip].height)
    {
      if g != h {
        assert Linked(c, u, ch, g) && NotAbove(ch, g, ch.blocks[ch.tip].height);
        HeaderUnderHash(c, u, ch, ch.blocks[g].block);
      }
    }
  }

  // ---- Paths -------------------------------------------------------------------------------

  /** Hashes from genesis to `h`. */
  ghost function PathTo(c: Crypto, u: set<Block>, ch: Chain, h: H256): (r: seq<H256>)
    requires Tree(c, u, ch) && h in ch.blocks
    ensures |r| == ch.blocks[h].height + 1 && r[|r| - 1] == h
    ensures forall i :: 0 <= i < |r| ==> r[i] in ch.blocks
    decreases ch.blocks[h].height
  {
    assert Linked(c, u, ch, h);
    if h == GenesisHash(c) then [h] else PathTo(c, u, ch, ParentOf(ch, h)) + [h]
  }

  /** `path` runs from genesis to `h` along parent links. */
  ghost predicate IsPath(c: Crypto, ch: Chain, path: seq<H256>, h: H256) {
    && path != [] && path[0] == GenesisHash(c) && path[|path| - 1] == h
    && (forall i :: 0 <= i < |path| ==> path[i] in ch.blocks)
    && (forall i {:trigger StepAt(ch, path, i)} :: 0 < i < |path| ==> StepAt(ch, path, i))
  }

  ghost predicate StepAt(ch: Chain, path: seq<H256>, i: nat) {
    0 < i < |path| && path[i] in ch.blocks && ParentOf(ch, path[i]) == path[i - 1]
  }

  lemma {:induction false} PathToIsPath(c: Crypto, u: set<Block>, ch: Chain, h: H256)
    requires Tree(c, u, ch) && h in ch.blocks
    ensures IsPath(c, ch, PathTo(c, u, ch, h), h)
    decreases ch.blocks[h].height
  {
    assert Linked(c, u, ch, h);
    if h != GenesisHash(c) {
      var p := ParentOf(ch, h);
      PathToIsPath(c, u, ch, p);
      var path, front := PathTo(c, u, ch, h), PathTo(c, u, ch, p);
      forall i | 0 < i < |path|
        ensures StepAt(ch, path, i)
      {
        assert i < |front| ==> StepAt(ch, front, i);
      }
    }
  }

  /** Position on a path is height. */
  lemma {:induction false} PathHeight(c: Crypto, u: set<Block>, ch: Chain, path: seq<H256>, h: H256, i: nat)
    requires HeadersDistinct(c, u) && Tree(c, u, ch) && IsPath(c, ch, path, h) && i < |path|
    ensures ch.blocks[path[i]].height == i
  {
    if i > 0 {
      PathHeight(c, u, ch, path, h, i - 1);
      assert StepAt(ch, path, i) && Linked(c, u, ch, path[i]);
      GenesisHasNoParent(c, u, ch);
    }
  }

  /** There is only one path to a block, it has height + 1 hashes, and none twice. */
  lemma {:induction false} PathIsUnique(c: Crypto, u: set<Block>, ch: Chain, path: seq<H256>, h: H256)
    requires HeadersDistinct(c, u) && Tree(c, u, ch) && IsPath(c, ch, path, h)
    ensures h in ch.blocks && path == PathTo(c, u, ch, h)
    ensures forall i, j :: 0 <= i < j < |path| ==> path[i] != path[j]
    decreases |path|
  {
    var n := |path| - 1;
    PathHeight(c, u, ch, path, h, n);
    assert Linked(c, u, ch, h);
    if n > 0 {
      var front := path[..n];
      assert StepAt(ch, path, n);
      forall i | 0 < i < n
        ensures StepAt(ch, front, i)
      {
        assert StepAt(ch, path, i);
      }
      PathIsUnique(c, u, ch, front, front[n - 1]);
      assert path == front + [h];
    }
    forall i, j | 0 <= i < j < |path|
      ensures path[i] != path[j]
    {
      PathHeight(c, u, ch, path, h, i);
      PathHeight(c, u, ch, path, h, j);
    }
  }

  // ---- The class ---------------------------------------------------------------------------

  function Reverse<T>(s: seq<T>): (r: seq<T>)
    ensures |r| == |s|
  {
    if s == [] then [] else Reverse(s[1..]) + [s[0]]
  }

  lemma {:induction false} ReverseSnoc<T>(s: seq<T>, x: T)
    ensures Reverse(s + [x]) == [x] + Reverse(s)
  {
    if s != [] {
      assert (s + [x])[1..] == s[1..] + [x];
      ReverseSnoc(s[1..], x);
    }
  }

  class Blockchain {
    var blocks: map<H256, Stored>
    var tip: H256

    ghost function View(): Chain
      reads this
    {
      Chain(blocks, tip)
    }

    constructor (c: Crypto)
      ensures View() == NewChain(c)
      ensures var zero := H256(seq(32, _ => 0));
        var genesis := Block(Header(zero, 0, GenesisDifficulty(), 0, zero), []);
        && tip == c.headerHash(genesis.head) && blocks == map[tip := Stored(genesis, 0)]
    {
      var genesisHash := BlockHash(c, Genesis());
      blocks, tip := map[genesisHash := Stored(Genesis(), 0)], genesisHash;
    }

    method Insert(c: Crypto, block: Block)
      requires block.head.parent in blocks && tip in blocks
      modifies this
      ensures View() == Inserted(c, old(View()), block)
      ensures var h, height := c.headerHash(block.head), old(blocks)[block.head.parent].height + 1;
        && blocks == old(blocks)[h := Stored(block, height)]
        && tip == if height > old(blocks)[old(tip)].height then h else old(tip)
    {
      var height := blocks[block.head.parent].height + 1;
      var prevTipHeight := blocks[tip].height;
      var blockHash := BlockHash(c, block);
      blocks := blocks[blockHash := Stored(block, height)];
      if height > prevTipHeight {
        tip := blockHash;
      }
    }

    /** The path from genesis to the tip, each hash stored under its successor's parent; no lookup on the
        way fails. */
    method AllBlocksInLongestChain(ghost c: Crypto, ghost u: set<Block>) returns (hashes: seq<H256>)
      requires Tree(c, u, View())
      ensures hashes == PathTo(c, u, View(), tip)
      ensures |hashes| == blocks[tip].height + 1 && hashes[0] == c.headerHash(Genesis().head) && hashes[|hashes| - 1] == tip
      ensures forall i :: 0 < i < |hashes| ==> hashes[i] in blocks && blocks[hashes[i]].block.head.parent == hashes[i - 1]
    {
      ghost var ch := View();
      hashes := [tip];
      var height := blocks[tip].height;
      var nextHash := blocks[tip].block.head.parent;
      WalkStart(c, u, ch, tip);
      while height >= 1
        invariant WalkedTo(c, u, ch, hashes, height, nextHash)
        invariant PathTo(c, u, ch, tip) == WalkPath(c, u, ch, hashes)
      {
        WalkStep(c, u, ch, hashes, height, nextHash);
        hashes := hashes + [nextHash];
        nextHash := blocks[nextHash].block.head.parent;
        height := height - 1;
      }
      WalkEnd(c, u, ch, hashes, nextHash);
      hashes := Reverse(hashes);
      PathToIsPath(c, u, ch, tip);
      forall i | 0 < i < |hashes|
        ensures hashes[i] in blocks && blocks[hashes[i]].block.head.parent == hashes[i - 1]
      {
        assert StepAt(ch, hashes, i);
      }
    }
  }

  /** A walk towards genesis has pushed `hashes`, the last of which is at `height` under `next`. */
  ghost predicate WalkedTo(c: Crypto, u: set<Block>, ch: Chain, hashes: seq<H256>, height: int, next: H256)
    requires Tree(c, u, ch)
  {
    && hashes != [] && hashes[|hashes| - 1] in ch.blocks
    && ch.blocks[hashes[|hashes| - 1]].height == height
    && ParentOf(ch, hashes[|hashes| - 1]) == next
  }

  /** The path still ahead of the walk, then what it has pushed, turned round. */
  ghost function WalkPath(c: Crypto, u: set<Block>, ch: Chain, hashes: seq<H256>): seq<H256>
    requires Tree(c, u, ch) && hashes != [] && hashes[|hashes| - 1] in ch.blocks
  {
    PathTo(c, u, ch, hashes[|hashes| - 1]) + Reverse(hashes[..|hashes| - 1])
  }

  lemma {:induction false} WalkStart(c: Crypto, u: set<Block>, ch: Chain, h: H256)
    requires Tree(c, u, ch) && h in ch.blocks
    ensures PathTo(c, u, ch, h) == WalkPath(c, u, ch, [h])
  {
    assert Reverse([h][..0]) == [];
  }

  lemma {:induction false} WalkStep(c: Crypto, u: set<Block>, ch: Chain, hashes: seq<H256>, height: int, next: H256)
    requires Tree(c, u, ch) && WalkedTo(c, u, ch, hashes, height, next) && height >= 1
    ensures next in ch.blocks && WalkedTo(c, u, ch, hashes + [next], height - 1, ParentOf(ch, next))
    ensures WalkPath(c, u, ch, hashes + [next]) == WalkPath(c, u, ch, hashes)
  {
    var n := |hashes| - 1;
    assert Linked(c, u, ch, hashes[n]);
    assert hashes == hashes[..n] + [hashes[n]];
    ReverseSnoc(hashes[..n], hashes[n]);
    assert (hashes + [next])[..n + 1] == hashes;
  }

  lemma {:induction false} WalkEnd(c: Crypto, u: set<Block>, ch: Chain, hashes: seq<H256>, next: H256)
    requires Tree(c, u, ch) && WalkedTo(c, u, ch, hashes, 0, next)
    ensures Reverse(hashes) == WalkPath(c, u, ch, hashes)
  {
    var n := |hashes| - 1;
    assert Linked(c, u, ch, hashes[n]);
    assert hashes == hashes[..n] + [hashes[n]];
    ReverseSnoc(hashes[..n], hashes[n]);
  }

  // ---- The tip over a run of insertions ----------------------------------------------------

  ghost predicate KnownParent(c: Crypto, blocks: seq<Block>, k: nat)
    requires k < |blocks|
  {
    var ch := ChainAfter(c, blocks, k);
    blocks[k].head.parent in ch.blocks && ch.tip in ch.blocks
  }

  /** The chain after inserting the first k blocks into a new one; a block without a known
      parent, which the source would not survive, leaves it alone. */
  function ChainAfter(c: Crypto, blocks: seq<Block>, k: nat): Chain
    requires k <= |blocks|
  {
    if k == 0 then NewChain(c)
    else
      var ch := ChainAfter(c, blocks, k - 1);
      if blocks[k - 1].head.parent in ch.blocks && ch.tip in ch.blocks then Inserted(c, ch, blocks[k - 1]) else ch
  }

  /** Every block of the run is inserted under a known parent. */
  ghost predicate Run(c: Crypto, u: set<Block>, blocks: seq<Block>) {
    && HeadersDistinct(c, u)
    && (forall k :: 0 <= k < |blocks| ==> blocks[k] in u)
    && (forall k {:trigger KnownParent(c, blocks, k)} :: 0 <= k < |blocks| ==> KnownParent(c, blocks, k))
  }

  lemma {:induction false} RunKeepsTree(c: Crypto, u: set<Block>, blocks: seq<Block>, k: nat)
    requires Run(c, u, blocks) && k <= |blocks|
    ensures Tree(c, u, ChainAfter(c, blocks, k))
  {
    if k == 0 {
      NewChainIsTree(c, u);
    } else {
      RunKeepsTree(c, u, blocks, k - 1);
      assert KnownParent(c, blocks, k - 1);
      InsertKeepsTree(c, u, ChainAfter(c, blocks, k - 1), blocks[k - 1]);
    }
  }

  lemma {:induction false} TipIsHighest(c: Crypto, u: set<Block>, ch: Chain, h: H256)
    requires Tree(c, u, ch) && h in ch.blocks
    ensures ch.blocks[h].height <= ch.blocks[ch.tip].height
  {
    assert NotAbove(ch, h, ch.blocks[ch.tip].height);
  }

  ghost predicate AllBelow(ch: Chain, height: nat) {
    forall h :: h in ch.blocks ==> ch.blocks[h].height < height
  }

  /** The tip after k insertions is the hash of the m-th inserted block (genesis for m = 0) and has
      the greatest height; every block present before the m-th insertion is strictly lower. */
  lemma {:induction false} TipIsFirstHighest(c: Crypto, u: set<Block>, blocks: seq<Block>, k: nat) returns (m: nat)
    requires Run(c, u, blocks) && k <= |blocks|
    ensures var ch := ChainAfter(c, blocks, k);
      && ch.tip in ch.blocks
      && m <= k && ch.tip == (if m == 0 then GenesisHash(c) else BlockHash(c, blocks[m - 1]))
      && (forall h :: h in ch.blocks ==> ch.blocks[h].height <= ch.blocks[ch.tip].height)
      && (m > 0 ==> AllBelow(ChainAfter(c, blocks, m - 1), ch.blocks[ch.tip].height))
  {
    var ch := ChainAfter(c, blocks, k);
    RunKeepsTree(c, u, blocks, k);
    forall h | h in ch.blocks
      ensures ch.blocks[h].height <= ch.blocks[ch.tip].height
    {
      TipIsHighest(c, u, ch, h);
    }
    if k == 0 {
      m := 0;
    } else {
      var before := ChainAfter(c, blocks, k - 1);
      RunKeepsTree(c, u, blocks, k - 1);
      assert KnownParent(c, blocks, k - 1);
      InsertKeepsTree(c, u, before, blocks[k - 1]);
      if ch.blocks[ch.tip].height > before.blocks[before.tip].height {
        m := k;
        forall h | h in before.blocks
          ensures before.blocks[h].height < ch.blocks[ch.tip].height
        {
          TipIsHighest(c, u, before, h);
        }
      } else {
        m := TipIsFirstHighest(c, u, blocks, k - 1);
      }
    }
  }

  // ---- Heights stay below the number of blocks ---------------------------------------------

  lemma {:induction false} PathFits<T>(path: seq<T>, keys: set<T>)
    requires forall i :: 0 <= i < |path| ==> path[i] in keys
    requires forall i, j :: 0 <= i < j < |path| ==> path[i] != path[j]
    ensures |path| <= |keys|
    decreases |path|
  {
    if path != [] {
      var n := |path| - 1;
      PathFits(path[..n], keys - {path[n]});
    }
  }

  /** A height is less than the number of stored blocks, so its 32-bit counter does not wrap
      below 2^32 blocks. */
  lemma {:induction false} HeightBelowCount(c: Crypto, u: set<Block>, ch: Chain, h: H256)
    requires HeadersDistinct(c, u) && Tree(c, u, ch) && h in ch.blocks
    ensures ch.blocks[h].height < |ch.blocks|
  {
    PathToIsPath(c, u, ch, h);
    PathIsUnique(c, u, ch, PathTo(c, u, ch, h), h);
    PathFits(PathTo(c, u, ch, h), ch.blocks.Keys);
  }
}
