/** The miner's loop body (src/miner/mod.rs): a batch of at most 50 transactions, kept until a block
    with it is found, and the header built around its Merkle root; and the worker that enters
    found blocks into the chain (src/miner/worker.rs). */
module Mining {
  import opened Hash
  import opened Types
  import opened Merkle
  import opened Ledger
  import opened Chains
  import opened ChainState
  import opened Reception

  const BLOCK_SIZE: nat := 50

  /** The source's shared `Mempool`. */
  class Mempool {
    var trans: map<H256, SignedTransaction>

    constructor ()
      ensures trans == map[]
    {
      trans := map[];
    }
  }

  function TakenFrom(trans: map<H256, SignedTransaction>, keys: seq<H256>): seq<SignedTransaction>
    requires forall k :: 0 <= k < |keys| ==> keys[k] in trans
  {
    seq(|keys|, k requires 0 <= k < |keys| => trans[keys[k]])
  }

  function FirstBatch(order: seq<H256>): seq<H256> {
    if |order| <= BLOCK_SIZE then order else order[..BLOCK_SIZE]
  }

  /** What every block the miner builds satisfies. */
  ghost predicate WellMade(c: Crypto, b: Block) {
    && |b.txs| <= BLOCK_SIZE
    && b.head.difficulty == GenesisDifficulty()
    && IsRootOf(c.pairHash, b.txs, c.signedHash, b.head.merkleRoot)
  }

  class Miner {
    const c: Crypto
    const mempool: Mempool
    var toRemove: seq<H256>
    var transaction: seq<SignedTransaction>

    ghost predicate Valid()
      reads this
    {
      |toRemove| == |transaction| <= BLOCK_SIZE
    }

    constructor (c: Crypto, mempool: Mempool)
      ensures Valid() && toRemove == [] && this.c == c && this.mempool == mempool
    {
      this.c, this.mempool, toRemove, transaction := c, mempool, [], [];
    }

    /** A new batch, in the map's iteration order, unless one is waiting for a block. */
    method FillBatch(order: seq<H256>)
      requires Valid() && forall k :: 0 <= k < |order| ==> order[k] in mempool.trans
      modifies this
      ensures Valid()
      ensures toRemove == if old(toRemove) == [] then FirstBatch(order) else old(toRemove)
      ensures transaction ==
        if old(toRemove) == [] then TakenFrom(mempool.trans, FirstBatch(order)) else old(transaction)
      ensures old(toRemove) == [] ==>
        && toRemove <= order && |toRemove| == (if |order| < 50 then |order| else 50)
        && |transaction| == |toRemove| && forall k :: 0 <= k < |toRemove| ==> transaction[k] == mempool.trans[order[k]]
      ensures old(toRemove) != [] ==> toRemove == old(toRemove) && transaction == old(transaction)
    {
      if |toRemove| == 0 {
        var i := 0;
        while i < |order| && |toRemove| < BLOCK_SIZE
          invariant i <= |order| && i == |toRemove| == |transaction| <= BLOCK_SIZE
          invariant toRemove == order[..i] && transaction == TakenFrom(mempool.trans, order[..i])
        {
          transaction := transaction + [mempool.trans[order[i]]];
          toRemove := toRemove + [order[i]];
          i := i + 1;
        }
      }
    }

    /** One iteration: the block tried, and whether it was found. A found block's transactions leave
        the mempool and the batch; otherwise the same batch is tried again. */
    method MineOnce(tip: H256, nonce: u32, timestamp: nat, order: seq<H256>) returns (block: Block, found: bool)
      requires Valid() && forall k :: 0 <= k < |order| ==> order[k] in mempool.trans
      modifies this, mempool
      ensures Valid() && WellMade(c, block) && |block.txs| <= 50
      ensures block.head == Header(tip, nonce, GenesisDifficulty(), timestamp, block.head.merkleRoot)
      ensures block.txs == [] ==> block.head.merkleRoot == H256(seq(32, _ => 0))
      ensures block.txs ==
        if old(toRemove) == [] then TakenFrom(old(mempool.trans), FirstBatch(order)) else old(transaction)
      ensures found <==> WorkDone(c, block)
      ensures found <==> BigEndian(c.headerHash(block.head).bytes) <= BigEndian(GenesisDifficulty().bytes)
      ensures var batch := if old(toRemove) == [] then FirstBatch(order) else old(toRemove);
        if found then toRemove == [] && transaction == [] && mempool.trans == old(mempool.trans) - (set h | h in batch)
        else toRemove == batch && transaction == block.txs && mempool.trans == old(mempool.trans)
    {
      hide GenesisDifficulty, TreeOf, Le, Root, BigEndian, FirstBatch, TakenFrom;
      FillBatch(order);
      var tree := New(c.pairHash, transaction, c.signedHash);
      TreeHasRoot(c.pairHash, transaction, c.signedHash, tree);
      Leaves(c.pairHash, transaction, c.signedHash, tree);
      var root := Root(tree);
      var header := Header(tip, nonce, GenesisDifficulty(), timestamp, root);
      block := Block(header, transaction);
      found := Le(BlockHash(c, block), GenesisDifficulty());
      WorkIsNumeric(c, block);
      if found {
        for i := 0 to |toRemove|
          invariant toRemove == old(if toRemove == [] then FirstBatch(order) else toRemove)
          invariant Valid() && transaction == block.txs
          invariant mempool.trans == old(mempool.trans) - (set h | h in toRemove[..i])
        {
          mempool.trans := mempool.trans - {toRemove[i]};
          assert toRemove[..i + 1] == toRemove[..i] + [toRemove[i]];
        }
        assert toRemove[..|toRemove|] == toRemove;
        toRemove, transaction := [], [];
      }
    }
  }

  lemma {:induction false} TreeHasRoot<T>(p: PairHash, data: seq<T>, hash: T -> H256, tree: MerkleTree)
    requires TreeOf(p, data, hash, tree)
    ensures tree.treeList != [] ==> tree.treeList[|tree.treeList| - 1] != []
    ensures IsRootOf(p, data, hash, Root(tree))
  {
  }

  // ---- Entering found blocks ---------------------------------------------------------------

  class Committer {
    const c: Crypto
    const blockchain: Blockchain
    const blockState: BlockState

    constructor (c: Crypto, blockchain: Blockchain, blockState: BlockState)
      ensures this.c == c && this.blockchain == blockchain && this.blockState == blockState
    {
      this.c, this.blockchain, this.blockState := c, blockchain, blockState;
    }

    /** The body of the miner worker's loop: a found block whose transactions are valid is cached,
        inserted and announced, with no further check; any other is dropped. */
    method Commit(block: Block) returns (announced: seq<H256>)
      requires block.head.parent in blockState.entries
      requires block.head.parent in blockchain.blocks && blockchain.tip in blockchain.blocks
      modifies blockchain, blockState
      ensures Valid(c, old(blockState.entries)[block.head.parent], block.txs) ==>
        && blockchain.View() == Inserted(c, old(blockchain.View()), block)
        && blockState.entries == Cached(c, old(blockState.entries), block)
        && announced == [BlockHash(c, block)]
      ensures var stored, entries := old(blockchain.blocks), old(blockState.entries);
        var h, parent := c.headerHash(block.head), block.head.parent;
        Valid(c, entries[parent], block.txs) ==>
          && blockchain.blocks == stored[h := Stored(block, stored[parent].height + 1)]
          && blockState.entries == entries[h := Replay(c, entries[parent], block.txs)] && announced == [h]
      ensures !Valid(c, old(blockState.entries)[block.head.parent], block.txs) ==>
        && blockchain.View() == old(blockchain.View()) && blockState.entries == old(blockState.entries)
        && announced == []
    {
      hide GenesisDifficulty, Le;
      announced := [];
      var ok, state := CheckTxs(c, blockState.entries[block.head.parent], block.txs);
      if ok {
        blockState.entries := blockState.entries[BlockHash(c, block) := state];
        blockchain.Insert(c, block);
        announced := [BlockHash(c, block)];
      }
    }
  }

  /** A found block needs no difficulty check: on a stored parent it is admissible as soon as its
      transactions are valid. */
  lemma {:induction false} FoundIsAdmissible(c: Crypto, owner: Address, seen: set<Block>, nd: Node, b: Block)
    requires Base(c, owner, seen, nd) && WellMade(c, b) && b.head.parent in nd.chain.blocks
    ensures Admissible(c, nd.chain, nd.cache, b) <==> Valid(c, nd.cache[b.head.parent], b.txs)
  {
    hide GenesisDifficulty, Le;
    assert WorkedAt(c, nd.chain, b.head.parent);
  }

  /** Entering a new block outside the worklist keeps everything that always holds. The buffer is
      not looked at, so it stays free of orphans with stored parents exactly when none of them
      waits for this block. */
  lemma {:induction false} CommitLeavesOrphans(c: Crypto, owner: Address, seen: set<Block>, nd: Node, b: Block)
    requires HeadersDistinct(c, seen) && Base(c, owner, seen, nd) && Drained(nd)
    requires b in seen && WorkDone(c, b) && BlockHash(c, b) !in nd.chain.blocks
    requires b.head.parent in nd.chain.blocks && Admissible(c, nd.chain, nd.cache, b)
    ensures Base(c, owner, seen, Adopt(c, nd, b))
    ensures Drained(Adopt(c, nd, b)) <==> forall o :: o in nd.orphans ==> o.head.parent != BlockHash(c, b)
  {
    hide GenesisDifficulty, Le;
    AdoptKeepsBase(c, owner, seen, nd, b);
    InsertKeepsTree(c, seen, nd.chain, b);
  }
}
