/** The block tree together with the per-block state cache, and what the ledger properties
    say about chains of stored blocks. */
module ChainState {
  import opened Hash
  import opened Types
  import opened Ledger
  import opened Spending
  import opened Accounting
  import opened Chains

  /** `block_state`: the ledger state after each block. */
  type Cache = map<H256, Utxo>

  predicate WorkDone(c: Crypto, b: Block) {
    Le(BlockHash(c, b), b.head.difficulty)
  }

  /** The proof of work is done when the hash of the header, as a number, does not exceed the difficulty
      in it. */
  lemma {:induction false} WorkIsNumeric(c: Crypto, b: Block)
    ensures WorkDone(c, b) <==> BigEndian(c.headerHash(b.head).bytes) <= BigEndian(b.head.difficulty.bytes)
  {
    LeIsTotalOrder(c.headerHash(b.head), b.head.difficulty, b.head.difficulty);
  }

  /** A block whose parent is stored passes: same difficulty, transactions valid on the parent's state. */
  ghost predicate Admissible(c: Crypto, ch: Chain, cache: Cache, b: Block)
    requires b.head.parent in ch.blocks && b.head.parent in cache
  {
    && b.head.difficulty == ch.blocks[b.head.parent].block.head.difficulty
    && Valid(c, cache[b.head.parent], b.txs)
  }

  /** The cache after `check_tx_state` succeeds. */
  function Cached(c: Crypto, cache: Cache, b: Block): Cache
    requires b.head.parent in cache
  {
    cache[BlockHash(c, b) := Replay(c, cache[b.head.parent], b.txs)]
  }

  /** Under `h` the cache holds the replay of b's body on the state of b's parent. */
  ghost predicate Justified(c: Crypto, cache: Cache, b: Block, h: H256) {
    && h in cache && b.head.parent in cache
    && Valid(c, cache[b.head.parent], b.txs)
    && cache[h] == Replay(c, cache[b.head.parent], b.txs)
  }

  ghost predicate ReplayedAt(c: Crypto, ch: Chain, cache: Cache, h: H256) {
    h in ch.blocks && (h != GenesisHash(c) ==> Justified(c, cache, ch.blocks[h].block, h))
  }

  /** The cache agrees with the stored bodies, block by block. */
  ghost predicate Replayed(c: Crypto, owner: Address, ch: Chain, cache: Cache) {
    && GenesisHash(c) in cache && cache[GenesisHash(c)] == Initial(owner)
    && (forall h {:trigger ReplayedAt(c, ch, cache, h)} :: h in ch.blocks ==> ReplayedAt(c, ch, cache, h))
  }

  ghost predicate WorkedAt(c: Crypto, ch: Chain, h: H256) {
    && h in ch.blocks
    && ch.blocks[h].block.head.difficulty == GenesisDifficulty()
    && (h != GenesisHash(c) ==> Le(h, GenesisDifficulty()))
  }

  /** Every stored block carries the genesis difficulty, and all but genesis meet it. */
  ghost predicate Worked(c: Crypto, ch: Chain) {
    forall h {:trigger WorkedAt(c, ch, h)} :: h in ch.blocks ==> WorkedAt(c, ch, h)
  }

  lemma {:induction false} InsertKeepsWork(c: Crypto, u: set<Block>, ch: Chain, b: Block)
    requires HeadersDistinct(c, u) && Tree(c, u, ch) && b in u && b.head.parent in ch.blocks
    requires Worked(c, ch) && WorkDone(c, b)
    requires b.head.difficulty == ch.blocks[b.head.parent].block.head.difficulty
    ensures Worked(c, Inserted(c, ch, b))
  {
    hide GenesisDifficulty, Le;
    assert WorkedAt(c, ch, b.head.parent);
    forall h | h in Inserted(c, ch, b).blocks
      ensures WorkedAt(c, Inserted(c, ch, b), h)
    {
      assert h != BlockHash(c, b) ==> WorkedAt(c, ch, h);
    }
  }

  // ---- Cache equals replay along the ancestor path -----------------------------------------

  /** All transactions on the path from genesis to `h`, in order. */
  ghost function PathTxs(c: Crypto, u: set<Block>, ch: Chain, h: H256): seq<SignedTransaction>
    requires Tree(c, u, ch) && h in ch.blocks
    decreases ch.blocks[h].height
  {
    assert Linked(c, u, ch, h);
    if h == GenesisHash(c) then [] else PathTxs(c, u, ch, ParentOf(ch, h)) + ch.blocks[h].block.txs
  }

  /** The state cached for a block is the fold of `State::update` over every transaction on its
      path, and every one of them is valid where it stands. */
  lemma {:induction false} CacheEqualsReplay(c: Crypto, owner: Address, u: set<Block>, ch: Chain, cache: Cache, h: H256)
    requires Tree(c, u, ch) && Replayed(c, owner, ch, cache) && h in ch.blocks
    ensures h in cache
    ensures Valid(c, Initial(owner), PathTxs(c, u, ch, h))
    ensures cache[h] == Replay(c, Initial(owner), PathTxs(c, u, ch, h))
    decreases ch.blocks[h].height
  {
    assert Linked(c, u, ch, h) && ReplayedAt(c, ch, cache, h);
    if h != GenesisHash(c) {
      var p := ParentOf(ch, h);
      CacheEqualsReplay(c, owner, u, ch, cache, p);
      ReplayConcat(c, Initial(owner), PathTxs(c, u, ch, p), ch.blocks[h].block.txs);
    }
  }

  /** The premises of exact accounting on a list of transactions. */
  ghost predicate Accountable(c: Crypto, txs: seq<SignedTransaction>) {
    && HashesDistinct(c, txs) && AllRegular(txs)
    && forall i {:trigger FewOutputs(txs[i])} :: 0 <= i < |txs| ==> FewOutputs(txs[i])
  }

  /** No outpoint of value is consumed at two positions, and no transaction of value occurs twice. */
  ghost predicate SpentAtMostOnce(c: Crypto, owner: Address, txs: seq<SignedTransaction>) {
    && (forall i, j, o :: 0 <= i < j < |txs| && Lists(txs[i], o) && Lists(txs[j], o) ==>
          ValueAt(ReplayTo(c, Initial(owner), txs, i), o) == 0)
    && (forall i, j :: 0 <= i < j < |txs| && txs[i] == txs[j] ==> OutputValue(txs[i]) == 0)
  }

  /** What the ledger promises of the transactions on a path and the state they lead to. */
  ghost predicate LedgerHolds(c: Crypto, owner: Address, txs: seq<SignedTransaction>, s: Utxo) {
    && (HashesDistinct(c, txs) && RepeatsAreCharged(txs) ==> SpentAtMostOnce(c, owner, txs))
    && (Accountable(c, txs) ==> Total(s) == 100 - Fees(c, Initial(owner), txs, |txs|))
  }

  /** On every chain of stored blocks no value is spent twice, and the value in a block's state is
      100 less the fees paid on its path. */
  lemma {:induction false} ChainLedgerHolds(c: Crypto, owner: Address, u: set<Block>, ch: Chain, cache: Cache, h: H256)
    requires Tree(c, u, ch) && Replayed(c, owner, ch, cache) && h in ch.blocks
    ensures h in cache && LedgerHolds(c, owner, PathTxs(c, u, ch, h), cache[h])
  {
    hide Tree, Replayed;
    var txs := PathTxs(c, u, ch, h);
    CacheEqualsReplay(c, owner, u, ch, cache, h);
    if HashesDistinct(c, txs) && RepeatsAreCharged(txs) {
      NoDoubleSpend(c, owner, txs);
      forall i, j | 0 <= i < j < |txs| && txs[i] == txs[j]
        ensures OutputValue(txs[i]) == 0
      {
        NoTransactionTwice(c, owner, txs, i, j);
      }
    }
    if Accountable(c, txs) {
      ExactAccounting(c, owner, txs, |txs|);
    }
  }

  /** An ancestor's transactions come first. */
  lemma {:induction false} AncestorPrefix(c: Crypto, u: set<Block>, ch: Chain, h: H256, i: nat)
    requires Tree(c, u, ch) && h in ch.blocks && i < |PathTo(c, u, ch, h)|
    ensures PathTxs(c, u, ch, PathTo(c, u, ch, h)[i]) <= PathTxs(c, u, ch, h)
    decreases ch.blocks[h].height
  {
    assert Linked(c, u, ch, h);
    if h != GenesisHash(c) && i < |PathTo(c, u, ch, h)| - 1 {
      AncestorPrefix(c, u, ch, ParentOf(ch, h), i);
    }
  }

  /** From an ancestor's state to a descendant's, an entry is unchanged or was spent, somewhere
      between the two, by a transaction its owner signed. */
  lemma {:induction false} ChainSpendingIsAuthorised(c: Crypto, owner: Address, u: set<Block>, ch: Chain,
        cache: Cache, h: H256, i: nat, o: OutPoint)
    requires Tree(c, u, ch) && Replayed(c, owner, ch, cache) && h in ch.blocks
    requires i < |PathTo(c, u, ch, h)| && HashesDistinct(c, PathTxs(c, u, ch, h))
    ensures var a, txs := PathTo(c, u, ch, h)[i], PathTxs(c, u, ch, h);
      && a in cache && h in cache
      && (o in cache[a] ==>
            || (o in cache[h] && cache[h][o] == cache[a][o])
            || (exists j :: |PathTxs(c, u, ch, a)| <= j < |txs| && AuthorisedBy(c, txs[j], o, cache[a][o].owner)))
  {
    var a, txs := PathTo(c, u, ch, h)[i], PathTxs(c, u, ch, h);
    var before := PathTxs(c, u, ch, a);
    CacheEqualsReplay(c, owner, u, ch, cache, h);
    CacheEqualsReplay(c, owner, u, ch, cache, a);
    AncestorPrefix(c, u, ch, h, i);
    assert txs == before + txs[|before|..];
    ReplayPrefix(c, Initial(owner), before, txs[|before|..], |before|);
    if o in cache[a] {
      OnlyOwnersSpend(c, owner, txs, |before|, |txs|, o);
    }
  }

  /** One accepted block, with no premise about hashes: an entry of the parent's state survives
      unchanged, was spent by a transaction its owner signed, or has the hash of a transaction
      of the block in its key. */
  lemma {:induction false} BlockSpendingIsAuthorised(c: Crypto, cache: Cache, b: Block, h: H256, o: OutPoint)
    requires Justified(c, cache, b, h) && o in cache[b.head.parent]
    ensures var e := cache[b.head.parent][o];
      || (o in cache[h] && cache[h][o] == e)
      || (exists j :: 0 <= j < |b.txs| && AuthorisedBy(c, b.txs[j], o, e.owner))
      || (exists j :: 0 <= j < |b.txs| && TxHash(c, b.txs[j]) == o.hash)
  {
    SpendingIsAuthorised(c, cache[b.head.parent], b.txs, |b.txs|, o);
  }

  // ---- Growth ------------------------------------------------------------------------------

  /** Every block and height stored in `ch` is stored unchanged in `ch'`. */
  ghost predicate Extends(ch: Chain, ch': Chain) {
    forall h :: h in ch.blocks ==> h in ch'.blocks && ch'.blocks[h] == ch.blocks[h]
  }

  ghost predicate CacheExtends(cache: Cache, cache': Cache) {
    forall h :: h in cache ==> h in cache' && cache'[h] == cache[h]
  }

  /** When hash determines body, an insertion changes nothing that is already stored. */
  lemma {:induction false} InsertExtends(c: Crypto, u: set<Block>, ch: Chain, b: Block)
    requires HeadersDistinct(c, u) && BodiesDistinct(c, u) && Tree(c, u, ch) && b in u && b.head.parent in ch.blocks
    ensures Extends(ch, Inserted(c, ch, b))
  {
    var h := BlockHash(c, b);
    HeaderUnderHash(c, u, ch, b);
    if h in ch.blocks {
      assert Linked(c, u, ch, h);
      assert BodiesAgree(c, ch.blocks[h].block, b);
    }
  }
}
