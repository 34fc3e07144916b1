/** What a worker has accepted depends only on which blocks it was sent, when hash determines
    body: not on their order, not on how they were grouped into messages. */
module Arrival {
  import opened Hash
  import opened Types
  import opened Ledger
  import opened Chains
  import opened ChainState
  import opened Reception

  // ---- Acceptance, defined on the set of blocks alone --------------------------------------

  /** The ledger state after the i-th block of a path. */
  ghost function PathState(c: Crypto, owner: Address, path: seq<Block>, i: nat): Utxo
    requires i < |path|
  {
    if i == 0 then Initial(owner) else Replay(c, PathState(c, owner, path, i - 1), path[i].txs)
  }

  /** The i-th block was sent, extends the one before, has its work done at the same difficulty,
      and its transactions are valid on the state its predecessors leave. */
  ghost predicate AcceptedStep(c: Crypto, owner: Address, seen: set<Block>, path: seq<Block>, i: nat) {
    && 0 < i < |path| && path[i] in seen
    && path[i].head.parent == BlockHash(c, path[i - 1])
    && WorkDone(c, path[i])
    && path[i].head.difficulty == path[i - 1].head.difficulty
    && Valid(c, PathState(c, owner, path, i - 1), path[i].txs)
  }

  ghost predicate AcceptedPath(c: Crypto, owner: Address, seen: set<Block>, path: seq<Block>) {
    && path != [] && path[0] == Genesis()
    && forall i {:trigger AcceptedStep(c, owner, seen, path, i)} ::
         0 < i < |path| ==> AcceptedStep(c, owner, seen, path, i)
  }

  ghost predicate EndsAt(c: Crypto, path: seq<Block>, h: H256) {
    path != [] && BlockHash(c, path[|path| - 1]) == h
  }

  /** The hashes reached from genesis by acceptable blocks: no chain takes part in this. */
  ghost predicate Acceptable(c: Crypto, owner: Address, seen: set<Block>, h: H256) {
    exists path :: AcceptedPath(c, owner, seen, path) && EndsAt(c, path, h)
  }

  // ---- The chain holds no more -------------------------------------------------------------

  lemma {:induction false} PathStatePrefix(c: Crypto, owner: Address, path: seq<Block>, b: Block, i: nat)
    requires i < |path|
    ensures PathState(c, owner, path + [b], i) == PathState(c, owner, path, i)
  {
    if i > 0 {
      PathStatePrefix(c, owner, path, b, i - 1);
    }
  }

  lemma {:induction false} ExtendPath(c: Crypto, owner: Address, seen: set<Block>, path: seq<Block>, b: Block)
    requires AcceptedPath(c, owner, seen, path)
    requires AcceptedStep(c, owner, seen, path + [b], |path|)
    ensures AcceptedPath(c, owner, seen, path + [b])
  {
    forall i | 0 < i < |path + [b]|
      ensures AcceptedStep(c, owner, seen, path + [b], i)
    {
      if i < |path| {
        assert AcceptedStep(c, owner, seen, path, i);
        PathStatePrefix(c, owner, path, b, i - 1);
      }
    }
  }

  /** Every stored block ends an accepted path of blocks sent, as long as it is high, whose state is
      the cached one. */
  lemma {:induction false} StoredIsAccepted(c: Crypto, owner: Address, seen: set<Block>, nd: Node, h: H256)
    returns (path: seq<Block>)
    requires HeadersDistinct(c, seen) && Base(c, owner, seen, nd) && h in nd.chain.blocks
    ensures AcceptedPath(c, owner, seen, path) && EndsAt(c, path, h)
    ensures |path| == nd.chain.blocks[h].height + 1 && path[|path| - 1] == nd.chain.blocks[h].block
    ensures nd.cache[h] == PathState(c, owner, path, |path| - 1)
    decreases nd.chain.blocks[h].height
  {
    hide GenesisDifficulty, Le;
    var ch := nd.chain;
    var b := ch.blocks[h].block;
    assert Linked(c, seen, ch, h) && ReplayedAt(c, ch, nd.cache, h) && WorkedAt(c, ch, h);
    if h == GenesisHash(c) {
      path := [b];
    } else {
      var p := ParentOf(ch, h);
      assert Linked(c, seen, ch, p) && WorkedAt(c, ch, p);
      var front := StoredIsAccepted(c, owner, seen, nd, p);
      path := front + [b];
      PathStatePrefix(c, owner, front, b, |front| - 1);
      assert WorkDone(c, b);
      assert AcceptedStep(c, owner, seen, path, |front|);
      ExtendPath(c, owner, seen, front, b);
    }
  }

  // ---- The chain holds no less -------------------------------------------------------------

  /** Every block of an accepted path is stored, at its height, under its state. */
  lemma {:induction false} AcceptedIsStored(c: Crypto, owner: Address, seen: set<Block>, nd: Node,
        path: seq<Block>, i: nat)
    requires HeadersDistinct(c, seen) && BodiesDistinct(c, seen) && Settled(c, owner, seen, nd)
    requires AcceptedPath(c, owner, seen, path) && i < |path|
    ensures var h := BlockHash(c, path[i]);
      h in nd.chain.blocks && nd.chain.blocks[h] == Stored(path[i], i) && nd.cache[h] == PathState(c, owner, path, i)
  {
    hide GenesisDifficulty, Le, WorkDone;
    var b, ch := path[i], nd.chain;
    var h := BlockHash(c, b);
    if i > 0 {
      AcceptedIsStored(c, owner, seen, nd, path, i - 1);
      assert AcceptedStep(c, owner, seen, path, i);
      HeaderUnderHash(c, seen, ch, b);
      NotGenesis(c, seen, ch, b);
      assert Handled(c, nd, b);
      assert b !in nd.orphans && Admissible(c, ch, nd.cache, b);
      assert Linked(c, seen, ch, h) && ReplayedAt(c, ch, nd.cache, h);
      assert BodiesAgree(c, ch.blocks[h].block, b);
    }
  }

  lemma {:induction false} NotGenesis(c: Crypto, seen: set<Block>, ch: Chain, b: Block)
    requires HeadersDistinct(c, seen) && Tree(c, seen, ch) && b.head.parent in ch.blocks
    ensures b != Genesis()
  {
    GenesisHasNoParent(c, seen, ch);
  }

  /** The keys of the chain between messages are exactly the acceptable hashes. */
  lemma {:induction false} ChainIsAcceptable(c: Crypto, owner: Address, seen: set<Block>, nd: Node, h: H256)
    requires HeadersDistinct(c, seen) && BodiesDistinct(c, seen) && Settled(c, owner, seen, nd)
    ensures h in nd.chain.blocks <==> Acceptable(c, owner, seen, h)
  {
    if h in nd.chain.blocks {
      var path := StoredIsAccepted(c, owner, seen, nd, h);
    }
    if Acceptable(c, owner, seen, h) {
      var path :| AcceptedPath(c, owner, seen, path) && EndsAt(c, path, h);
      AcceptedIsStored(c, owner, seen, nd, path, |path| - 1);
    }
  }

  /** And the orphans are exactly the blocks sent, with their work done, whose parent is not acceptable. */
  lemma {:induction false} OrphansAreExact(c: Crypto, owner: Address, seen: set<Block>, nd: Node, b: Block)
    requires HeadersDistinct(c, seen) && BodiesDistinct(c, seen) && Settled(c, owner, seen, nd)
    ensures b in nd.orphans <==>
      b in seen && b != Genesis() && WorkDone(c, b) && !Acceptable(c, owner, seen, b.head.parent)
  {
    hide GenesisDifficulty, Le, WorkDone, Acceptable;
    ChainIsAcceptable(c, owner, seen, nd, b.head.parent);
    if b in nd.orphans {
      assert OrphanOk(c, seen, b);
    } else if b in seen && b != Genesis() && WorkDone(c, b) {
      assert Handled(c, nd, b);
      if BlockHash(c, b) in nd.chain.blocks {
        StoredHasParent(c, seen, nd.chain, b);
      }
    }
  }

  lemma {:induction false} StoredHasParent(c: Crypto, seen: set<Block>, ch: Chain, b: Block)
    requires BodiesDistinct(c, seen) && Tree(c, seen, ch) && b in seen && BlockHash(c, b) in ch.blocks
    ensures b == Genesis() || b.head.parent in ch.blocks
  {
    assert Linked(c, seen, ch, BlockHash(c, b));
    assert BodiesAgree(c, ch.blocks[BlockHash(c, b)].block, b);
  }

  /** Two workers that have been sent the same blocks store the same blocks at the same heights
      with the same states, buffer the same orphans, and have tips of one height. */
  lemma {:induction false} OrderDoesNotMatter(c: Crypto, owner: Address, seen: set<Block>, nd1: Node, nd2: Node)
    requires HeadersDistinct(c, seen) && BodiesDistinct(c, seen)
    requires Settled(c, owner, seen, nd1) && Settled(c, owner, seen, nd2)
    ensures nd1.chain.blocks == nd2.chain.blocks && nd1.cache == nd2.cache
    ensures SetOf(nd1.orphans) == SetOf(nd2.orphans)
    ensures nd1.chain.tip in nd1.chain.blocks && nd2.chain.tip in nd2.chain.blocks
    ensures nd1.chain.blocks[nd1.chain.tip].height == nd2.chain.blocks[nd2.chain.tip].height
  {
    hide GenesisDifficulty, Le, WorkDone, Acceptable, Worked, Replayed;
    forall h
      ensures h in nd1.chain.blocks <==> h in nd2.chain.blocks
      ensures h in nd1.chain.blocks ==> nd1.chain.blocks[h] == nd2.chain.blocks[h] && nd1.cache[h] == nd2.cache[h]
    {
      SameUnder(c, owner, seen, nd1, nd2, h);
    }
    forall b
      ensures b in nd1.orphans <==> b in nd2.orphans
    {
      OrphansAreExact(c, owner, seen, nd1, b);
      OrphansAreExact(c, owner, seen, nd2, b);
    }
    TipIsHighest(c, seen, nd1.chain, nd2.chain.tip);
    TipIsHighest(c, seen, nd2.chain, nd1.chain.tip);
  }

  lemma {:induction false} SameUnder(c: Crypto, owner: Address, seen: set<Block>, nd1: Node, nd2: Node, h: H256)
    requires HeadersDistinct(c, seen) && BodiesDistinct(c, seen)
    requires Settled(c, owner, seen, nd1) && Settled(c, owner, seen, nd2)
    ensures h in nd1.chain.blocks <==> h in nd2.chain.blocks
    ensures h in nd1.chain.blocks ==> nd1.chain.blocks[h] == nd2.chain.blocks[h] && nd1.cache[h] == nd2.cache[h]
  {
    ChainIsAcceptable(c, owner, seen, nd1, h);
    ChainIsAcceptable(c, owner, seen, nd2, h);
    if h in nd1.chain.blocks {
      var path := StoredIsAccepted(c, owner, seen, nd1, h);
      AcceptedIsStored(c, owner, seen, nd2, path, |path| - 1);
    }
  }

  // ---- A whole run -------------------------------------------------------------------------

  /** All blocks of the first n messages. */
  function Delivered(inbox: seq<seq<Block>>, n: nat): set<Block>
    requires n <= |inbox|
  {
    if n == 0 then {} else Delivered(inbox, n - 1) + SetOf(inbox[n - 1])
  }

  /** The premise for a part of the blocks follows from the premise for all. */
  lemma {:induction false} FewerHeaders(c: Crypto, u: set<Block>, v: set<Block>)
    requires HeadersDistinct(c, v) && u <= v && Genesis() in u
    ensures HeadersDistinct(c, u)
  {
    forall a, b | a in u && b in u
      ensures HeadersAgree(c, a, b)
    {
    }
    forall a | a in u
      ensures NonZero(c, a)
    {
    }
  }

  lemma {:induction false} DeliveredGrows(inbox: seq<seq<Block>>, m: nat, n: nat)
    requires m <= n <= |inbox|
    ensures Delivered(inbox, m) <= Delivered(inbox, n)
  {
    if m < n {
      DeliveredGrows(inbox, m, n - 1);
    }
  }

  /** `worker_loop` on a finite sequence of `Blocks` messages. */
  method WorkerLoop(w: Worker, inbox: seq<seq<Block>>, ghost owner: Address, ghost seen: set<Block>)
    requires Settled(w.c, owner, seen, w.View())
    requires HeadersDistinct(w.c, seen + Delivered(inbox, |inbox|))
    modifies w`orphanBlocks, w.blockchain, w.blockState
    ensures Settled(w.c, owner, seen + Delivered(inbox, |inbox|), w.View())
    ensures BodiesDistinct(w.c, seen + Delivered(inbox, |inbox|)) ==> forall h ::
      h in w.View().chain.blocks <==> Acceptable(w.c, owner, seen + Delivered(inbox, |inbox|), h)
  {
    hide Settled, HeadersDistinct, Acceptable;
    ghost var all := seen + Delivered(inbox, |inbox|);
    assert seen + Delivered(inbox, 0) == seen;
    for k := 0 to |inbox|
      invariant Settled(w.c, owner, seen + Delivered(inbox, k), w.View())
    {
      DeliveredGrows(inbox, k + 1, |inbox|);
      ghost var next := seen + Delivered(inbox, k) + SetOf(inbox[k]);
      assert next == seen + Delivered(inbox, k + 1);
      SettledHasGenesis(w.c, owner, seen + Delivered(inbox, k), w.View());
      FewerHeaders(w.c, next, all);
      var newBlocks, requests, asked := w.HandleBlocks(inbox[k], owner, seen + Delivered(inbox, k));
    }
    if BodiesDistinct(w.c, all) {
      forall h
        ensures h in w.View().chain.blocks <==> Acceptable(w.c, owner, all, h)
      {
        ChainIsAcceptable(w.c, owner, all, w.View(), h);
      }
    }
  }

  /** Two new workers that are sent the same blocks, in any order and grouping, end with the same blocks
      at the same heights under the same states, the same orphans, and tips of one height. */
  method AnyOrder(c: Crypto, owner: Address, inbox1: seq<seq<Block>>, inbox2: seq<seq<Block>>)
    returns (w1: Worker, w2: Worker)
    requires Delivered(inbox1, |inbox1|) == Delivered(inbox2, |inbox2|)
    requires HeadersDistinct(c, {Genesis()} + Delivered(inbox1, |inbox1|))
    requires BodiesDistinct(c, {Genesis()} + Delivered(inbox1, |inbox1|))
    ensures w1.View().chain.blocks == w2.View().chain.blocks && w1.View().cache == w2.View().cache
    ensures SetOf(w1.orphanBlocks) == SetOf(w2.orphanBlocks)
    ensures var ch1, ch2 := w1.View().chain, w2.View().chain;
      && ch1.tip in ch1.blocks && ch2.tip in ch2.blocks
      && ch1.blocks[ch1.tip].height == ch2.blocks[ch2.tip].height
  {
    hide Settled, HeadersDistinct, BodiesDistinct, Acceptable;
    ghost var seen := {Genesis()} + Delivered(inbox1, |inbox1|);
    NewNodeIsSettled(c, owner);
    w1 := new Worker(c, owner);
    WorkerLoop(w1, inbox1, owner, {Genesis()});
    w2 := new Worker(c, owner);
    WorkerLoop(w2, inbox2, owner, {Genesis()});
    OrderDoesNotMatter(c, owner, seen, w1.View(), w2.View());
  }

  lemma {:induction false} SettledHasGenesis(c: Crypto, owner: Address, seen: set<Block>, nd: Node)
    requires Settled(c, owner, seen, nd)
    ensures Genesis() in seen
  {
    assert Linked(c, seen, nd.chain, GenesisHash(c));
  }
}
