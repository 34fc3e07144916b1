/** Walks from the tip to genesis that take the lock anew at every step: `tx_exist_check`
    (src/miner/mod.rs) and two handlers of src/api/mod.rs. `views[k]` is the chain as the k-th
    `lock()` of a walk finds it; other threads may have inserted in between. */
module Walks {
  import opened Hash
  import opened Types
  import opened Chains
  import opened ChainState
  import opened Interleaving

  /** Each view extends the earlier ones, and there is one for each lock a walk can take. */
  ghost predicate Growing(views: seq<Chain>) {
    && views != [] && views[0].tip in views[0].blocks
    && |views| >= views[0].blocks[views[0].tip].height + 2
    && forall k {:trigger Extends(views[0], views[k])} :: 0 <= k < |views| ==> Extends(views[0], views[k])
  }

  /** Views taken by a walk in any run of the node are growing views of a tree; every block of the first
      has a state in the cache of that moment, and a cache read later agrees with it. */
  lemma {:induction false} RunsGiveGrowingViews(c: Crypto, owner: Address, u: set<Block>, workers: nat,
        events: seq<Event>, times: seq<nat>, views: seq<Chain>, t: nat, first: Cache, cache: Cache)
    requires Universe(c, u, Start(c, owner, workers), events) && BodiesDistinct(c, u)
    requires |times| == |views| > 0 && times[0] <= t <= |events|
    requires forall k :: 0 <= k < |times| ==> times[0] <= times[k] <= |events|
    requires forall k :: 0 <= k < |times| ==>
      views[k] == After(c, Start(c, owner, workers), events, times[k]).shared.chain
    requires first == After(c, Start(c, owner, workers), events, times[0]).shared.cache
    requires cache == After(c, Start(c, owner, workers), events, t).shared.cache
    requires views[0].tip in views[0].blocks ==> |views| >= views[0].blocks[views[0].tip].height + 2
    ensures Growing(views) && Tree(c, u, views[0])
    ensures views[0].blocks.Keys <= first.Keys && CacheExtends(first, cache)
  {
    hide Universe, Start, Extends, Tree, Safe;
    SafeHasTree(c, owner, u, workers, events, times[0]);
    NothingPanics(c, owner, u, workers, events, times[0]);
    NothingIsReplaced(c, owner, u, workers, events, times[0], t);
    forall k | 0 <= k < |views|
      ensures Extends(views[0], views[k])
    {
      NothingIsReplaced(c, owner, u, workers, events, times[0], times[k]);
    }
  }

  lemma {:induction false} SafeHasTree(c: Crypto, owner: Address, u: set<Block>, workers: nat,
        events: seq<Event>, k: nat)
    requires Universe(c, u, Start(c, owner, workers), events) && k <= |events|
    ensures var ch := After(c, Start(c, owner, workers), events, k).shared.chain;
      Tree(c, u, ch) && ch.tip in ch.blocks
  {
    AlwaysSafe(c, owner, u, workers, events, k);
  }

  /** The path a walk describes: that of the tip at its first lock. */
  ghost function FirstPath(c: Crypto, u: set<Block>, views: seq<Chain>): seq<H256>
    requires Growing(views) && Tree(c, u, views[0])
  {
    PathTo(c, u, views[0], views[0].tip)
  }

  predicate Contains(c: Crypto, b: Block, tx: H256) {
    exists i :: 0 <= i < |b.txs| && TxHash(c, b.txs[i]) == tx
  }

  ghost predicate ContainsAt(c: Crypto, ch: Chain, h: H256, tx: H256) {
    h in ch.blocks && Contains(c, ch.blocks[h].block, tx)
  }

  /** The scan of one block. */
  method Scan(c: Crypto, b: Block, tx: H256) returns (found: bool)
    ensures found <==> Contains(c, b, tx)
  {
    for i := 0 to |b.txs|
      invariant forall j :: 0 <= j < i ==> TxHash(c, b.txs[j]) != tx
    {
      if tx == TxHash(c, b.txs[i]) {
        return true;
      }
    }
    found := false;
  }

  /** One step down keeps a walk on the first path, whatever view it looks in. */
  lemma {:induction false} StepDown(c: Crypto, u: set<Block>, views: seq<Chain>, last: H256, k: nat)
    requires Growing(views) && Tree(c, u, views[0]) && last in views[0].blocks && k < |views|
    requires views[0].blocks[last].height >= 1
    ensures var next := ParentOf(views[0], last);
      && next in views[0].blocks && next in views[k].blocks && views[k].blocks[next] == views[0].blocks[next]
      && views[0].blocks[next].height == views[0].blocks[last].height - 1
      && PathTo(c, u, views[0], last) == PathTo(c, u, views[0], next) + [last]
  {
    assert Extends(views[0], views[k]);
    assert Linked(c, u, views[0], last);
  }

  lemma {:induction false} AtGenesis(c: Crypto, u: set<Block>, ch: Chain, last: H256)
    requires Tree(c, u, ch) && last in ch.blocks && ch.blocks[last].height == 0
    ensures PathTo(c, u, ch, last) == [last]
  {
    assert Linked(c, u, ch, last);
  }

  /** Not to be contained along a path is to differ from the hash of every transaction there. */
  lemma {:induction false} AbsentMeans(c: Crypto, u: set<Block>, views: seq<Chain>, tx: H256)
    requires Growing(views) && Tree(c, u, views[0])
    ensures var path := FirstPath(c, u, views);
      (forall h :: h in path ==> !ContainsAt(c, views[0], h, tx)) <==>
      (forall i, j :: 0 <= i < |path| && 0 <= j < |views[0].blocks[path[i]].block.txs| ==>
        c.signedHash(views[0].blocks[path[i]].block.txs[j]) != tx)
  {
    hide Tree, PathTo;
    var path := FirstPath(c, u, views);
    if forall h :: h in path ==> !ContainsAt(c, views[0], h, tx) {
      forall i, j | 0 <= i < |path| && 0 <= j < |views[0].blocks[path[i]].block.txs|
        ensures c.signedHash(views[0].blocks[path[i]].block.txs[j]) != tx
      {
        assert !ContainsAt(c, views[0], path[i], tx);
      }
    }
  }

  /** `tx_exist_check`: true iff no block on the first path contains the transaction. */
  method TxExistCheck(c: Crypto, ghost u: set<Block>, views: seq<Chain>, tx: H256) returns (absent: bool)
    requires Growing(views) && Tree(c, u, views[0])
    ensures absent <==> forall h :: h in FirstPath(c, u, views) ==> !ContainsAt(c, views[0], h, tx)
  {
    hide Tree;
    var tip := views[0].tip;
    assert Extends(views[0], views[1]);
    var Stored(block, height) := views[1].blocks[tip];
    ghost var last, rest: seq<H256> := tip, [];
    var found := Scan(c, block, tx);
    if found {
      assert ContainsAt(c, views[0], last, tx) && last in FirstPath(c, u, views);
      return false;
    }
    var nextHash := block.head.parent;
    var k := 2;
    while height >= 1
      invariant height >= 0 && k >= 2 && k + height == views[0].blocks[tip].height + 2
      invariant last in views[0].blocks && views[0].blocks[last].height == height
      invariant nextHash == ParentOf(views[0], last)
      invariant FirstPath(c, u, views) == PathTo(c, u, views[0], last) + rest
      invariant !ContainsAt(c, views[0], last, tx) && forall h :: h in rest ==> !ContainsAt(c, views[0], h, tx)
      decreases height
    {
      StepDown(c, u, views, last, k);
      rest := [last] + rest;
      last := nextHash;
      assert FirstPath(c, u, views) == PathTo(c, u, views[0], last) + rest;
      block := views[k].blocks[nextHash].block;
      found := Scan(c, block, tx);
      if found {
        assert ContainsAt(c, views[0], last, tx) && last in FirstPath(c, u, views);
        return false;
      }
      nextHash := block.head.parent;
      height, k := height - 1, k + 1;
    }
    AtGenesis(c, u, views[0], last);
    absent := true;
  }

  function TxHashes(c: Crypto, b: Block): seq<H256> {
    seq(|b.txs|, i requires 0 <= i < |b.txs| => TxHash(c, b.txs[i]))
  }

  ghost function TxsAlong(c: Crypto, ch: Chain, path: seq<H256>): seq<seq<H256>>
    requires forall i :: 0 <= i < |path| ==> path[i] in ch.blocks
  {
    seq(|path|, i requires 0 <= i < |path| => TxHashes(c, ch.blocks[path[i]].block))
  }

  /** A walk stands at walked[0], the rest of `walked` lies above it on the first path, and `hashes`
      are the transaction lists of `walked`, last first. */
  ghost predicate Listing(c: Crypto, u: set<Block>, views: seq<Chain>, walked: seq<H256>, hashes: seq<seq<H256>>)
    requires Growing(views) && Tree(c, u, views[0])
  {
    && walked != [] && (forall i :: 0 <= i < |walked| ==> walked[i] in views[0].blocks)
    && FirstPath(c, u, views) == PathTo(c, u, views[0], walked[0]) + walked[1..]
    && Reverse(hashes) == TxsAlong(c, views[0], walked)
  }

  lemma {:induction false} ListOne(c: Crypto, u: set<Block>, views: seq<Chain>)
    requires Growing(views) && Tree(c, u, views[0])
    ensures Listing(c, u, views, [views[0].tip], [TxHashes(c, views[0].blocks[views[0].tip].block)])
  {
    var hashes := [TxHashes(c, views[0].blocks[views[0].tip].block)];
    assert hashes == [] + hashes;
    ReverseSnoc([], hashes[0]);
  }

  lemma {:induction false} ListNext(c: Crypto, u: set<Block>, views: seq<Chain>, walked: seq<H256>,
        hashes: seq<seq<H256>>, k: nat)
    requires Growing(views) && Tree(c, u, views[0]) && Listing(c, u, views, walked, hashes)
    requires views[0].blocks[walked[0]].height >= 1 && k < |views|
    ensures var next := ParentOf(views[0], walked[0]);
      && next in views[0].blocks
      && Listing(c, u, views, [next] + walked, hashes + [TxHashes(c, views[0].blocks[next].block)])
  {
    hide Tree, Growing, Linked, Extends, TxHashes, PathTo, TxsAlong;
    StepDown(c, u, views, walked[0], k);
    var next := ParentOf(views[0], walked[0]);
    var more := TxHashes(c, views[0].blocks[next].block);
    assert walked == [walked[0]] + walked[1..];
    ReverseSnoc(hashes, more);
    TxsAlongNext(c, views[0], next, walked);
  }

  lemma {:induction false} TxsAlongNext(c: Crypto, ch: Chain, next: H256, walked: seq<H256>)
    requires next in ch.blocks && forall i :: 0 <= i < |walked| ==> walked[i] in ch.blocks
    ensures TxsAlong(c, ch, [next] + walked) == [TxHashes(c, ch.blocks[next].block)] + TxsAlong(c, ch, walked)
  {
    hide TxHashes;
  }

  /** `/blockchain/longest-chain-tx`: the transaction lists of the blocks on the first path. */
  method LongestChainTxs(c: Crypto, ghost u: set<Block>, views: seq<Chain>) returns (hashes: seq<seq<H256>>)
    requires Growing(views) && Tree(c, u, views[0])
    ensures hashes == TxsAlong(c, views[0], FirstPath(c, u, views))
    ensures var path := FirstPath(c, u, views);
      |hashes| == |path| && forall i :: 0 <= i < |path| ==>
        && |hashes[i]| == |views[0].blocks[path[i]].block.txs|
        && forall j :: 0 <= j < |hashes[i]| ==> hashes[i][j] == c.signedHash(views[0].blocks[path[i]].block.txs[j])
  {
    hide Tree, Listing;
    var tip := views[0].tip;
    assert Extends(views[0], views[1]);
    var Stored(block, height) := views[1].blocks[tip];
    hashes := [TxHashes(c, block)];
    ghost var last, walked := tip, [tip];
    ListOne(c, u, views);
    var nextHash := block.head.parent;
    var k := 2;
    while height >= 1
      invariant height >= 0 && k >= 2 && k + height == views[0].blocks[tip].height + 2
      invariant last in views[0].blocks && views[0].blocks[last].height == height
      invariant nextHash == ParentOf(views[0], last)
      invariant walked != [] && walked[0] == last && Listing(c, u, views, walked, hashes)
      decreases height
    {
      StepDown(c, u, views, last, k);
      ListNext(c, u, views, walked, hashes, k);
      last, walked := nextHash, [nextHash] + walked;
      block := views[k].blocks[nextHash].block;
      hashes := hashes + [TxHashes(c, block)];
      nextHash := block.head.parent;
      height, k := height - 1, k + 1;
    }
    ListAll(c, u, views, walked, hashes);
    hashes := Reverse(hashes);
    TxsAlongAt(c, views[0], FirstPath(c, u, views));
  }

  lemma {:induction false} TxsAlongAt(c: Crypto, ch: Chain, path: seq<H256>)
    requires forall i :: 0 <= i < |path| ==> path[i] in ch.blocks
    ensures var hashes := TxsAlong(c, ch, path);
      |hashes| == |path| && forall i :: 0 <= i < |path| ==>
        && |hashes[i]| == |ch.blocks[path[i]].block.txs|
        && forall j :: 0 <= j < |hashes[i]| ==> hashes[i][j] == c.signedHash(ch.blocks[path[i]].block.txs[j])
  {
    var hashes := TxsAlong(c, ch, path);
    forall i | 0 <= i < |path|
      ensures |hashes[i]| == |ch.blocks[path[i]].block.txs|
      ensures forall j :: 0 <= j < |hashes[i]| ==> hashes[i][j] == c.signedHash(ch.blocks[path[i]].block.txs[j])
    {
      assert hashes[i] == TxHashes(c, ch.blocks[path[i]].block);
    }
  }

  lemma {:induction false} ListAll(c: Crypto, u: set<Block>, views: seq<Chain>, walked: seq<H256>,
        hashes: seq<seq<H256>>)
    requires Growing(views) && Tree(c, u, views[0]) && Listing(c, u, views, walked, hashes)
    requires views[0].blocks[walked[0]].height == 0
    ensures Reverse(hashes) == TxsAlong(c, views[0], FirstPath(c, u, views))
  {
    AtGenesis(c, u, views[0], walked[0]);
    assert FirstPath(c, u, views) == walked;
  }

  /** `/blockchain/state`: the state at height min(index, tip height) of the first path, as it was
      cached at the first lock. */
  method StateAtHeight(c: Crypto, ghost u: set<Block>, views: seq<Chain>, ghost first: Cache, cache: Cache, index: u32)
    returns (s: Utxo)
    requires Growing(views) && Tree(c, u, views[0])
    requires views[0].blocks.Keys <= first.Keys && CacheExtends(first, cache)
    ensures var path := FirstPath(c, u, views);
      var at := if index < |path| then index else |path| - 1;
      path[at] in first && s == first[path[at]]
  {
    hide Tree;
    var tip := views[0].tip;
    assert Extends(views[0], views[1]);
    var Stored(block, height) := views[1].blocks[tip];
    var nextHash := tip;
    ghost var rest: seq<H256> := [];
    var k := 2;
    while height > index
      invariant height >= 0 && k >= 2 && k + height == views[0].blocks[tip].height + 2
      invariant nextHash in views[0].blocks && views[0].blocks[nextHash] == Stored(block, height)
      invariant FirstPath(c, u, views) == PathTo(c, u, views[0], nextHash) + rest
      invariant rest == [] || height >= index
      decreases height
    {
      StepDown(c, u, views, nextHash, k);
      rest := [nextHash] + rest;
      nextHash := block.head.parent;
      assert FirstPath(c, u, views) == PathTo(c, u, views[0], nextHash) + rest;
      block := views[k].blocks[nextHash].block;
      height, k := height - 1, k + 1;
    }
    assert FirstPath(c, u, views)[height] == nextHash;
    s := cache[nextHash];
  }
}
