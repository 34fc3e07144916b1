/** Reception of blocks by one network worker (src/network/worker.rs): the `Blocks` arm of
    `worker_loop`, its orphan buffer, and the worklist that drains it. */
module Reception {
  import opened Hash
  import opened Types
  import opened Ledger
  import opened Chains
  import opened ChainState

  function SetOf<T>(s: seq<T>): set<T> {
    set x | x in s
  }

  /** What the worker reads and writes: the shared chain and cache, and its own orphans. */
  datatype Node = Node(chain: Chain, cache: Cache, orphans: seq<Block>)

  function NewNode(c: Crypto, owner: Address): Node {
    Node(NewChain(c), map[GenesisHash(c) := Initial(owner)], [])
  }

  /** A block that passed is cached, then inserted. */
  function Adopt(c: Crypto, nd: Node, b: Block): Node
    requires b.head.parent in nd.chain.blocks && nd.chain.tip in nd.chain.blocks
    requires b.head.parent in nd.cache
  {
    nd.(chain := Inserted(c, nd.chain, b), cache := Cached(c, nd.cache, b))
  }

  /** `Vec::remove`. */
  function Without(nd: Node, i: nat): Node
    requires i < |nd.orphans|
  {
    nd.(orphans := nd.orphans[..i] + nd.orphans[i + 1..])
  }

  // ---- Invariants --------------------------------------------------------------------------

  ghost predicate OrphanOk(c: Crypto, seen: set<Block>, o: Block) {
    o in seen && WorkDone(c, o) && BlockHash(c, o) != GenesisHash(c)
  }

  /** Always: the chain is a tree of blocks seen, the cache has the same keys and replays the
      stored bodies, all work is done, and orphans are seen blocks with their work done. */
  ghost predicate Base(c: Crypto, owner: Address, seen: set<Block>, nd: Node) {
    && Tree(c, seen, nd.chain)
    && nd.cache.Keys == nd.chain.blocks.Keys
    && Replayed(c, owner, nd.chain, nd.cache)
    && Worked(c, nd.chain)
    && (forall o {:trigger OrphanOk(c, seen, o)} :: o in nd.orphans ==> OrphanOk(c, seen, o))
  }

  ghost predicate ParentQueued(ch: Chain, queue: seq<H256>, o: Block) {
    o.head.parent in ch.blocks ==> o.head.parent in queue
  }

  /** Nobody stored names `h` as parent. */
  ghost predicate Childless(c: Crypto, ch: Chain, h: H256) {
    forall g {:trigger ParentOf(ch, g)} :: g in ch.blocks && g != GenesisHash(c) ==> ParentOf(ch, g) != h
  }

  ghost predicate TwinChildless(c: Crypto, ch: Chain, o: Block) {
    BlockHash(c, o) in ch.blocks ==> Childless(c, ch, BlockHash(c, o))
  }

  ghost predicate QueuedAt(c: Crypto, ch: Chain, queue: seq<H256>, k: nat) {
    && k < |queue| && queue[k] in ch.blocks && queue[k] != GenesisHash(c)
    && queue[0] in ch.blocks && ch.blocks[queue[k]].height <= ch.blocks[queue[0]].height + 1
  }

  ghost predicate Ordered(ch: Chain, queue: seq<H256>, j: nat, k: nat) {
    && j < |queue| && k < |queue| && queue[j] in ch.blocks && queue[k] in ch.blocks
    && ch.blocks[queue[j]].height <= ch.blocks[queue[k]].height
  }

  /** While `queue` of adopted hashes waits: it is ordered by height and spans two heights; an
      orphan whose parent is stored has that parent in the queue; and if an orphan's own hash is
      already stored (under another body), nothing has been built on it. */
  ghost predicate Draining(c: Crypto, nd: Node, queue: seq<H256>) {
    && (forall k {:trigger QueuedAt(c, nd.chain, queue, k)} :: 0 <= k < |queue| ==> QueuedAt(c, nd.chain, queue, k))
    && (forall j, k {:trigger Ordered(nd.chain, queue, j, k)} :: 0 <= j <= k < |queue| ==> Ordered(nd.chain, queue, j, k))
    && (forall o {:trigger ParentQueued(nd.chain, queue, o)} :: o in nd.orphans ==> ParentQueued(nd.chain, queue, o))
    && (forall o {:trigger TwinChildless(c, nd.chain, o)} :: o in nd.orphans ==> TwinChildless(c, nd.chain, o))
  }

  /** At a message boundary no buffered orphan has its parent in the chain. */
  ghost predicate Drained(nd: Node) {
    forall o :: o in nd.orphans ==> o.head.parent !in nd.chain.blocks
  }

  /** A block with its work done is stored, or buffered, or was refused for good. */
  ghost predicate Handled(c: Crypto, nd: Node, b: Block) {
    WorkDone(c, b) ==>
      || BlockHash(c, b) in nd.chain.blocks
      || b in nd.orphans
      || (b.head.parent in nd.chain.blocks && b.head.parent in nd.cache && !Admissible(c, nd.chain, nd.cache, b))
  }

  ghost predicate AllHandled(c: Crypto, done: set<Block>, nd: Node) {
    forall b {:trigger Handled(c, nd, b)} :: b in done ==> Handled(c, nd, b)
  }

  /** The state of a worker between messages, after the blocks `seen`. */
  ghost predicate Settled(c: Crypto, owner: Address, seen: set<Block>, nd: Node) {
    && Base(c, owner, seen, nd)
    && Drained(nd)
    && (BodiesDistinct(c, seen) ==> AllHandled(c, seen - {Genesis()}, nd))
  }

  // ---- Steps that keep the invariants ------------------------------------------------------

  lemma {:induction false} NewNodeIsSettled(c: Crypto, owner: Address)
    ensures Settled(c, owner, {Genesis()}, NewNode(c, owner))
  {
    NewChainIsTree(c, {Genesis()});
  }

  lemma {:induction false} BaseGrows(c: Crypto, owner: Address, seen: set<Block>, more: set<Block>, nd: Node)
    requires Base(c, owner, seen, nd) && seen <= more
    ensures Base(c, owner, more, nd)
  {
    forall h | h in nd.chain.blocks
      ensures Linked(c, more, nd.chain, h)
    {
      assert Linked(c, seen, nd.chain, h);
    }
    forall o | o in nd.orphans
      ensures OrphanOk(c, more, o)
    {
      assert OrphanOk(c, seen, o);
    }
  }

  lemma {:induction false} AdoptKeepsReplay(c: Crypto, owner: Address, seen: set<Block>, nd: Node, b: Block)
    requires HeadersDistinct(c, seen) && Base(c, owner, seen, nd) && b in seen
    requires b.head.parent in nd.chain.blocks && Admissible(c, nd.chain, nd.cache, b)
    requires TwinChildless(c, nd.chain, b)
    ensures Replayed(c, owner, Adopt(c, nd, b).chain, Adopt(c, nd, b).cache)
  {
    var h, nd' := BlockHash(c, b), Adopt(c, nd, b);
    HeaderUnderHash(c, seen, nd.chain, b);
    assert Linked(c, seen, nd.chain, b.head.parent);
    forall g | g in nd'.chain.blocks
      ensures ReplayedAt(c, nd'.chain, nd'.cache, g)
    {
      if g != h {
        assert ReplayedAt(c, nd.chain, nd.cache, g) && Linked(c, seen, nd.chain, g);
        assert g != GenesisHash(c) ==> ParentOf(nd.chain, g) != h;
      } else {
        assert b.head.parent != h;
      }
    }
  }

  /** Adopting an admissible block keeps everything that always holds; a second body under a
      stored hash does so too, as long as nothing was built on the first. */
  lemma {:induction false} AdoptKeepsBase(c: Crypto, owner: Address, seen: set<Block>, nd: Node, b: Block)
    requires HeadersDistinct(c, seen) && Base(c, owner, seen, nd) && b in seen && WorkDone(c, b)
    requires b.head.parent in nd.chain.blocks && Admissible(c, nd.chain, nd.cache, b)
    requires TwinChildless(c, nd.chain, b)
    ensures Base(c, owner, seen, Adopt(c, nd, b))
    ensures SameHeights(nd.chain, Adopt(c, nd, b).chain)
  {
    AdoptKeepsReplay(c, owner, seen, nd, b);
    InsertKeepsTree(c, seen, nd.chain, b);
    InsertKeepsWork(c, seen, nd.chain, b);
  }

  /** Nothing stored names a hash that is not stored. */
  lemma {:induction false} AbsentIsChildless(c: Crypto, seen: set<Block>, ch: Chain, h: H256)
    requires Tree(c, seen, ch) && h !in ch.blocks
    ensures Childless(c, ch, h)
  {
    forall g | g in ch.blocks && g != GenesisHash(c)
      ensures ParentOf(ch, g) != h
    {
      assert Linked(c, seen, ch, g);
    }
  }

  /** An orphan twin of a stored block waits for the parent they share. */
  lemma {:induction false} TwinParent(c: Crypto, owner: Address, seen: set<Block>, nd: Node, o: Block)
    requires HeadersDistinct(c, seen) && Base(c, owner, seen, nd) && o in nd.orphans
    requires BlockHash(c, o) in nd.chain.blocks
    ensures o.head.parent in nd.chain.blocks
    ensures nd.chain.blocks[BlockHash(c, o)].height == nd.chain.blocks[o.head.parent].height + 1
  {
    assert OrphanOk(c, seen, o) && Linked(c, seen, nd.chain, BlockHash(c, o));
    HeaderUnderHash(c, seen, nd.chain, o);
  }

  /** A new child of p leaves twins childless, unless an orphan is a twin of p itself. */
  lemma {:induction false} TwinsStayChildless(c: Crypto, owner: Address, seen: set<Block>, nd: Node, b: Block,
        o: Block)
    requires HeadersDistinct(c, seen) && Base(c, owner, seen, nd) && b in seen
    requires b.head.parent in nd.chain.blocks && Admissible(c, nd.chain, nd.cache, b)
    requires o in nd.orphans && TwinChildless(c, nd.chain, o) && BlockHash(c, o) != b.head.parent
    ensures TwinChildless(c, Adopt(c, nd, b).chain, o)
  {
    var ch', ho, hb := Adopt(c, nd, b).chain, BlockHash(c, o), BlockHash(c, b);
    if ho in ch'.blocks {
      if ho !in nd.chain.blocks {
        AbsentIsChildless(c, seen, nd.chain, ho);
      }
      forall g | g in ch'.blocks && g != GenesisHash(c)
        ensures ParentOf(ch', g) != ho
      {
        assert g != hb ==> ParentOf(nd.chain, g) != ho;
      }
    }
  }

  /** A block adopted directly opens a queue of one. */
  lemma {:induction false} AdoptOpensQueue(c: Crypto, owner: Address, seen: set<Block>, nd: Node, b: Block)
    requires HeadersDistinct(c, seen) && Base(c, owner, seen, nd) && b in seen && Drained(nd)
    requires b.head.parent in nd.chain.blocks && Admissible(c, nd.chain, nd.cache, b)
    requires BlockHash(c, b) !in nd.chain.blocks
    ensures Draining(c, Adopt(c, nd, b), [BlockHash(c, b)])
  {
    var nd', queue := Adopt(c, nd, b), [BlockHash(c, b)];
    HeaderUnderHash(c, seen, nd.chain, b);
    forall o | o in nd'.orphans
      ensures ParentQueued(nd'.chain, queue, o) && TwinChildless(c, nd'.chain, o)
    {
      if BlockHash(c, o) in nd.chain.blocks {
        TwinParent(c, owner, seen, nd, o);
      }
      TwinsStayChildless(c, owner, seen, nd, b, o);
    }
  }

  /** A block un-orphaned by the head of the queue goes to its end. */
  lemma {:induction false} AdoptExtendsQueue(c: Crypto, owner: Address, seen: set<Block>, nd: Node,
        queue: seq<H256>, b: Block)
    requires HeadersDistinct(c, seen) && Base(c, owner, seen, nd) && b in seen
    requires Draining(c, nd, queue) && queue != [] && b.head.parent == queue[0]
    requires b.head.parent in nd.chain.blocks && Admissible(c, nd.chain, nd.cache, b)
    ensures Draining(c, Adopt(c, nd, b), queue + [BlockHash(c, b)])
  {
    var nd', h := Adopt(c, nd, b), BlockHash(c, b);
    var queue' := queue + [h];
    InsertKeepsTree(c, seen, nd.chain, b);
    HeaderUnderHash(c, seen, nd.chain, b);
    assert nd'.chain.blocks[h].height == nd.chain.blocks[queue[0]].height + 1;
    forall k | 0 <= k < |queue'|
      ensures QueuedAt(c, nd'.chain, queue', k)
    {
      assert QueuedAt(c, nd.chain, queue, 0);
      assert k < |queue| ==> QueuedAt(c, nd.chain, queue, k);
    }
    forall j, k | 0 <= j <= k < |queue'|
      ensures Ordered(nd'.chain, queue', j, k)
    {
      assert QueuedAt(c, nd'.chain, queue', j) && QueuedAt(c, nd'.chain, queue', k);
      assert k < |queue| ==> Ordered(nd.chain, queue, j, k);
    }
    forall o | o in nd'.orphans
      ensures ParentQueued(nd'.chain, queue', o) && TwinChildless(c, nd'.chain, o)
    {
      assert ParentQueued(nd.chain, queue, o) && TwinChildless(c, nd.chain, o);
      NoTwinOfHead(c, owner, seen, nd, queue, o);
      TwinsStayChildless(c, owner, seen, nd, b, o);
    }
  }

  /** No orphan is a twin of the head of the queue: it would wait for a parent lower than
      everything queued. */
  lemma {:induction false} NoTwinOfHead(c: Crypto, owner: Address, seen: set<Block>, nd: Node,
        queue: seq<H256>, o: Block)
    requires HeadersDistinct(c, seen) && Base(c, owner, seen, nd)
    requires Draining(c, nd, queue) && queue != [] && o in nd.orphans
    ensures BlockHash(c, o) != queue[0]
  {
    assert QueuedAt(c, nd.chain, queue, 0);
    if BlockHash(c, o) in nd.chain.blocks {
      TwinParent(c, owner, seen, nd, o);
      assert ParentQueued(nd.chain, queue, o);
      var k :| 0 <= k < |queue| && queue[k] == o.head.parent;
      assert Ordered(nd.chain, queue, 0, k);
    }
  }

  /** When no orphan waits for the head of the queue any more, it can go. */
  lemma {:induction false} HeadDone(c: Crypto, nd: Node, queue: seq<H256>)
    requires Draining(c, nd, queue) && queue != []
    requires forall o :: o in nd.orphans ==> o.head.parent != queue[0]
    ensures Draining(c, nd, queue[1..])
  {
    var rest := queue[1..];
    forall k | 0 <= k < |rest|
      ensures QueuedAt(c, nd.chain, rest, k)
    {
      assert QueuedAt(c, nd.chain, queue, k + 1) && QueuedAt(c, nd.chain, queue, 1);
      assert Ordered(nd.chain, queue, 0, 1);
    }
    forall j, k | 0 <= j <= k < |rest|
      ensures Ordered(nd.chain, rest, j, k)
    {
      assert Ordered(nd.chain, queue, j + 1, k + 1);
    }
    forall o | o in nd.orphans
      ensures ParentQueued(nd.chain, rest, o)
    {
      assert ParentQueued(nd.chain, queue, o);
      assert queue == [queue[0]] + rest;
    }
  }

  lemma {:induction false} DrainedIsDraining(c: Crypto, owner: Address, seen: set<Block>, nd: Node)
    requires HeadersDistinct(c, seen) && Base(c, owner, seen, nd)
    ensures Draining(c, nd, []) <==> Drained(nd)
  {
    if Drained(nd) {
      forall o | o in nd.orphans
        ensures TwinChildless(c, nd.chain, o)
      {
        if BlockHash(c, o) in nd.chain.blocks {
          TwinParent(c, owner, seen, nd, o);
        }
      }
    } else {
      var o :| o in nd.orphans && o.head.parent in nd.chain.blocks;
      assert !ParentQueued(nd.chain, [], o);
    }
  }

  lemma {:induction false} RemovedOrphan(nd: Node, i: nat)
    requires i < |nd.orphans|
    ensures forall o :: o in Without(nd, i).orphans ==> o in nd.orphans
    ensures forall o :: o in nd.orphans ==> o in Without(nd, i).orphans || o == nd.orphans[i]
  {
    assert nd.orphans == nd.orphans[..i] + [nd.orphans[i]] + nd.orphans[i + 1..];
  }

  /** Taking an orphan out keeps the invariants, and it is ready to be adopted. */
  lemma {:induction false} TakeOrphan(c: Crypto, owner: Address, seen: set<Block>, nd: Node, queue: seq<H256>, i: nat)
    requires Base(c, owner, seen, nd) && Draining(c, nd, queue) && i < |nd.orphans|
    ensures Base(c, owner, seen, Without(nd, i)) && Draining(c, Without(nd, i), queue)
    ensures OrphanOk(c, seen, nd.orphans[i]) && TwinChildless(c, nd.chain, nd.orphans[i])
  {
    RemovedOrphan(nd, i);
    var nd' := Without(nd, i);
    forall o | o in nd'.orphans
      ensures OrphanOk(c, seen, o)
      ensures ParentQueued(nd'.chain, queue, o) && TwinChildless(c, nd'.chain, o)
    {
      assert OrphanOk(c, seen, o) && ParentQueued(nd.chain, queue, o) && TwinChildless(c, nd.chain, o);
    }
  }

  // ---- Refusals are final when hash determines body ----------------------------------------

  lemma {:induction false} AdoptExtends(c: Crypto, owner: Address, seen: set<Block>, nd: Node, b: Block)
    requires HeadersDistinct(c, seen) && BodiesDistinct(c, seen) && Base(c, owner, seen, nd) && b in seen
    requires b.head.parent in nd.chain.blocks && Admissible(c, nd.chain, nd.cache, b)
    ensures Extends(nd.chain, Adopt(c, nd, b).chain) && CacheExtends(nd.cache, Adopt(c, nd, b).cache)
  {
    InsertExtends(c, seen, nd.chain, b);
    HeaderUnderHash(c, seen, nd.chain, b);
    var h := BlockHash(c, b);
    if h in nd.chain.blocks {
      assert Linked(c, seen, nd.chain, h) && ReplayedAt(c, nd.chain, nd.cache, h);
      assert BodiesAgree(c, nd.chain.blocks[h].block, b);
    }
  }

  /** Once handled, always handled: `nd'` stores at least as much as `nd`, and of its orphans at
      most `x` is gone, which is handled itself. */
  lemma {:induction false} HandledStays(c: Crypto, done: set<Block>, nd: Node, nd': Node, x: Block)
    requires AllHandled(c, done, nd)
    requires Extends(nd.chain, nd'.chain) && CacheExtends(nd.cache, nd'.cache)
    requires forall o :: o in nd.orphans ==> o in nd'.orphans || o == x
    requires Handled(c, nd', x)
    ensures AllHandled(c, done + {x}, nd')
  {
    forall b | b in done + {x}
      ensures Handled(c, nd', b)
    {
      if b != x {
        assert Handled(c, nd, b);
      }
    }
  }

  // ---- One orphan of the head of the worklist ----------------------------------------------

  /** The invariant of the worklist loops: everything above, for the waiting part of the list. */
  ghost predicate Busy(c: Crypto, owner: Address, seen: set<Block>, done: set<Block>, nd: Node, queue: seq<H256>) {
    && HeadersDistinct(c, seen)
    && Base(c, owner, seen, nd)
    && Draining(c, nd, queue)
    && (BodiesDistinct(c, seen) ==> AllHandled(c, done, nd))
  }

  /** Since the chain had the keys `keys`, exactly the hashes `newBlocks` were added, all new. */
  ghost predicate Announced(c: Crypto, keys: set<H256>, nd: Node, newBlocks: seq<H256>) {
    && nd.chain.blocks.Keys == keys + SetOf(newBlocks)
    && SetOf(newBlocks) !! keys
    && (forall o {:trigger BlockHash(c, o)} :: o in nd.orphans ==> BlockHash(c, o) !in keys)
  }

  ghost predicate Ready(nd: Node, b: Block) {
    b.head.parent in nd.chain.blocks && b.head.parent in nd.cache && nd.chain.tip in nd.chain.blocks
  }

  /** A checked block: adopted if admissible, dropped otherwise. */
  ghost function Tried(c: Crypto, nd: Node, b: Block): Node
    requires Ready(nd, b)
  {
    if Admissible(c, nd.chain, nd.cache, b) then Adopt(c, nd, b) else nd
  }

  ghost function Pushed(c: Crypto, nd: Node, b: Block, newBlocks: seq<H256>): seq<H256>
    requires Ready(nd, b)
  {
    if Admissible(c, nd.chain, nd.cache, b) then newBlocks + [BlockHash(c, b)] else newBlocks
  }

  lemma {:induction false} OrphanReady(c: Crypto, owner: Address, seen: set<Block>, done: set<Block>, nd: Node,
        queue: seq<H256>, i: nat)
    requires Busy(c, owner, seen, done, nd, queue) && queue != []
    requires i < |nd.orphans| && nd.orphans[i].head.parent == queue[0]
    ensures Ready(Without(nd, i), nd.orphans[i])
  {
    assert QueuedAt(c, nd.chain, queue, 0);
  }

  /** Removing an orphan of the head and trying it keeps the loop invariant. */
  lemma {:induction false} TryOrphan(c: Crypto, owner: Address, seen: set<Block>, done: set<Block>, nd: Node,
        queue: seq<H256>, i: nat)
    requires Busy(c, owner, seen, done, nd, queue) && queue != []
    requires i < |nd.orphans| && nd.orphans[i].head.parent == queue[0]
    requires Ready(Without(nd, i), nd.orphans[i])
    ensures Busy(c, owner, seen, done,
                 Tried(c, Without(nd, i), nd.orphans[i]), Pushed(c, Without(nd, i), nd.orphans[i], queue))
  {
    var nd1, b := Without(nd, i), nd.orphans[i];
    TakeOrphan(c, owner, seen, nd, queue, i);
    RemovedOrphan(nd, i);
    if Admissible(c, nd1.chain, nd1.cache, b) {
      AdoptKeepsBase(c, owner, seen, nd1, b);
      AdoptExtendsQueue(c, owner, seen, nd1, queue, b);
    }
    if BodiesDistinct(c, seen) {
      if Admissible(c, nd1.chain, nd1.cache, b) {
        AdoptExtends(c, owner, seen, nd1, b);
      }
      HandledStays(c, done, nd, Tried(c, nd1, b), b);
    }
  }

  lemma {:induction false} TryOrphanAnnounces(c: Crypto, keys: set<H256>, nd: Node, newBlocks: seq<H256>, i: nat)
    requires Announced(c, keys, nd, newBlocks) && i < |nd.orphans|
    requires Ready(Without(nd, i), nd.orphans[i])
    ensures Announced(c, keys,
                      Tried(c, Without(nd, i), nd.orphans[i]), Pushed(c, Without(nd, i), nd.orphans[i], newBlocks))
  {
    RemovedOrphan(nd, i);
    var h := BlockHash(c, nd.orphans[i]);
    assert SetOf(newBlocks + [h]) == SetOf(newBlocks) + {h};
  }

  lemma {:induction false} NextHead(c: Crypto, owner: Address, seen: set<Block>, done: set<Block>, nd: Node,
        newBlocks: seq<H256>, n: nat)
    requires n < |newBlocks| && Busy(c, owner, seen, done, nd, newBlocks[n..])
    requires forall k :: 0 <= k < |nd.orphans| ==> nd.orphans[k].head.parent != newBlocks[n]
    ensures Busy(c, owner, seen, done, nd, newBlocks[n + 1..])
  {
    HeadDone(c, nd, newBlocks[n..]);
    assert newBlocks[n..][1..] == newBlocks[n + 1..];
  }

  // ---- One received block ------------------------------------------------------------------

  /** Between messages nothing waits, and no buffered hash is stored. */
  lemma {:induction false} MessageStarts(c: Crypto, owner: Address, seen: set<Block>, all: set<Block>, nd: Node)
    requires HeadersDistinct(c, all) && seen <= all && Settled(c, owner, seen, nd)
    ensures Busy(c, owner, all, seen - {Genesis()}, nd, [])
    ensures Announced(c, nd.chain.blocks.Keys, nd, [])
  {
    BaseGrows(c, owner, seen, all, nd);
    DrainedIsDraining(c, owner, all, nd);
    if BodiesDistinct(c, all) {
      assert forall a, b :: a in seen && b in seen ==> BodiesAgree(c, a, b);
    }
    forall o | o in nd.orphans
      ensures BlockHash(c, o) !in nd.chain.blocks
    {
      if BlockHash(c, o) in nd.chain.blocks {
        TwinParent(c, owner, all, nd, o);
      }
    }
  }

  lemma {:induction false} MessageEnds(c: Crypto, owner: Address, all: set<Block>, done: set<Block>, nd: Node)
    requires Busy(c, owner, all, done, nd, []) && all - {Genesis()} <= done
    ensures Settled(c, owner, all, nd)
  {
    DrainedIsDraining(c, owner, all, nd);
    if BodiesDistinct(c, all) {
      forall b | b in all - {Genesis()}
        ensures Handled(c, nd, b)
      {
        assert b in done;
      }
    }
  }

  /** A block without work, or already stored, is skipped. */
  lemma {:induction false} Skip(c: Crypto, owner: Address, all: set<Block>, done: set<Block>, nd: Node, b: Block)
    requires Busy(c, owner, all, done, nd, [])
    requires !WorkDone(c, b) || BlockHash(c, b) in nd.chain.blocks
    ensures Busy(c, owner, all, done + {b}, nd, [])
  {
    if BodiesDistinct(c, all) {
      HandledStays(c, done, nd, nd, b);
    }
  }

  /** A block with a stored parent is tried, and opens the worklist if it is adopted. */
  lemma {:induction false} TryDirect(c: Crypto, owner: Address, all: set<Block>, done: set<Block>, nd: Node, b: Block)
    requires Busy(c, owner, all, done, nd, []) && b in all && WorkDone(c, b)
    requires BlockHash(c, b) !in nd.chain.blocks && b.head.parent in nd.chain.blocks
    ensures Ready(nd, b)
    ensures Busy(c, owner, all, done + {b}, Tried(c, nd, b), Pushed(c, nd, b, []))
  {
    hide BodiesDistinct, HeadersDistinct;
    DrainedIsDraining(c, owner, all, nd);
    if Admissible(c, nd.chain, nd.cache, b) {
      AdoptKeepsBase(c, owner, all, nd, b);
      AdoptOpensQueue(c, owner, all, nd, b);
    }
    if BodiesDistinct(c, all) {
      TriedIsHandled(c, owner, all, done, nd, b);
    }
  }

  lemma {:induction false} TriedIsHandled(c: Crypto, owner: Address, all: set<Block>, done: set<Block>,
        nd: Node, b: Block)
    requires HeadersDistinct(c, all) && BodiesDistinct(c, all) && Base(c, owner, all, nd) && b in all
    requires Ready(nd, b) && AllHandled(c, done, nd)
    ensures AllHandled(c, done + {b}, Tried(c, nd, b))
  {
    hide Base, BodiesDistinct, HeadersDistinct, WorkDone, Valid, Replay;
    if Admissible(c, nd.chain, nd.cache, b) {
      AdoptExtends(c, owner, all, nd, b);
    }
    HandledStays(c, done, nd, Tried(c, nd, b), b);
  }

  lemma {:induction false} TryDirectAnnounces(c: Crypto, keys: set<H256>, nd: Node, newBlocks: seq<H256>, b: Block)
    requires Announced(c, keys, nd, newBlocks) && Ready(nd, b) && BlockHash(c, b) !in nd.chain.blocks
    ensures Announced(c, keys, Tried(c, nd, b), Pushed(c, nd, b, newBlocks))
  {
    var h := BlockHash(c, b);
    assert SetOf(newBlocks + [h]) == SetOf(newBlocks) + {h};
  }

  lemma {:induction false} ListedIsStored(c: Crypto, keys: set<H256>, nd: Node, newBlocks: seq<H256>)
    requires Announced(c, keys, nd, newBlocks)
    ensures forall k :: 0 <= k < |newBlocks| ==> newBlocks[k] in nd.chain.blocks
  {
  }

  /** What becomes of a new block with its work done: it is buffered and its parent asked for, or
      refused, or stored and listed, with whatever was waiting for it listed behind. */
  ghost predicate Taken(c: Crypto, nd: Node, b: Block, pushed: seq<H256>, nd': Node, newBlocks: seq<H256>,
                        requests: seq<H256>)
  {
    if b.head.parent !in nd.chain.blocks then
      nd' == Buffered(nd, b) && newBlocks == pushed && requests == [b.head.parent]
    else
      && requests == [] && b.head.parent in nd.cache
      && if Admissible(c, nd.chain, nd.cache, b)
         then pushed + [BlockHash(c, b)] <= newBlocks && BlockHash(c, b) in nd'.chain.blocks
         else nd' == nd && newBlocks == pushed
  }

  function Buffered(nd: Node, b: Block): Node {
    nd.(orphans := nd.orphans + [b])
  }

  /** A block without a stored parent goes to the buffer. */
  lemma {:induction false} Buffer(c: Crypto, owner: Address, all: set<Block>, done: set<Block>, nd: Node, b: Block)
    requires Busy(c, owner, all, done, nd, []) && b in all && WorkDone(c, b)
    requires BlockHash(c, b) !in nd.chain.blocks && b.head.parent !in nd.chain.blocks
    ensures Busy(c, owner, all, done + {b}, Buffered(nd, b), [])
  {
    var nd' := Buffered(nd, b);
    DrainedIsDraining(c, owner, all, nd);
    forall o | o in nd'.orphans
      ensures OrphanOk(c, all, o) && o.head.parent !in nd'.chain.blocks
    {
      assert o in nd.orphans ==> OrphanOk(c, all, o);
    }
    DrainedIsDraining(c, owner, all, nd');
    if BodiesDistinct(c, all) {
      HandledStays(c, done, nd, nd', b);
    }
  }

  lemma {:induction false} BufferAnnounces(c: Crypto, keys: set<H256>, nd: Node, newBlocks: seq<H256>, b: Block)
    requires Announced(c, keys, nd, newBlocks) && BlockHash(c, b) !in nd.chain.blocks
    ensures Announced(c, keys, Buffered(nd, b), newBlocks)
  {
  }

  // ---- A message as a function -------------------------------------------------------------

  /** What the worklist loops leave of a node and its list, from the n-th hash and i-th orphan on. */
  ghost function DrainFrom(c: Crypto, nd: Node, newBlocks: seq<H256>, n: nat, i: nat): (Node, seq<H256>)
    decreases |nd.orphans|, |newBlocks| - n, |nd.orphans| - i
  {
    if n >= |newBlocks| then (nd, newBlocks)
    else if i >= |nd.orphans| then DrainFrom(c, nd, newBlocks, n + 1, 0)
    else if nd.orphans[i].head.parent != newBlocks[n] then DrainFrom(c, nd, newBlocks, n, i + 1)
    else if Ready(Without(nd, i), nd.orphans[i]) then
      DrainFrom(c, Tried(c, Without(nd, i), nd.orphans[i]), Pushed(c, Without(nd, i), nd.orphans[i], newBlocks), n, i)
    else (nd, newBlocks)
  }

  /** What one block of a message leaves. */
  ghost function Received(c: Crypto, nd: Node, newBlocks: seq<H256>, b: Block): (Node, seq<H256>) {
    if !WorkDone(c, b) || BlockHash(c, b) in nd.chain.blocks then (nd, newBlocks)
    else if b.head.parent !in nd.chain.blocks then (Buffered(nd, b), newBlocks)
    else if Ready(nd, b) then DrainFrom(c, Tried(c, nd, b), Pushed(c, nd, b, newBlocks), |newBlocks|, 0)
    else (nd, newBlocks)
  }

  /** And the first k blocks. */
  ghost function ReceivedAll(c: Crypto, nd: Node, blocks: seq<Block>, k: nat): (Node, seq<H256>)
    requires k <= |blocks|
  {
    if k == 0 then (nd, [])
    else
      var (nd', newBlocks) := ReceivedAll(c, nd, blocks, k - 1);
      Received(c, nd', newBlocks, blocks[k - 1])
  }

  /** By the time the k-th block is looked at: its work is done, its hash is not stored, and neither is
      its parent. */
  ghost predicate AsksFor(c: Crypto, nd: Node, blocks: seq<Block>, k: nat) {
    k < |blocks| && Wanting(c, ReceivedAll(c, nd, blocks, k).0, blocks[k])
  }

  ghost predicate Wanting(c: Crypto, nd: Node, b: Block) {
    && BigEndian(c.headerHash(b.head).bytes) <= BigEndian(b.head.difficulty.bytes)
    && c.headerHash(b.head) !in nd.chain.blocks && b.head.parent !in nd.chain.blocks
  }

  /** Of the first k blocks, `asked` has the positions of those that ask for their parent, in order, and
      `requests` these parents. */
  ghost predicate Asked(c: Crypto, nd: Node, blocks: seq<Block>, k: nat, requests: seq<H256>, asked: seq<nat>) {
    && |requests| == |asked| && k <= |blocks|
    && (forall j :: 0 <= j < |asked| ==> asked[j] < k && requests[j] == blocks[asked[j]].head.parent)
    && (forall i, j :: 0 <= i < j < |asked| ==> asked[i] < asked[j])
    && (forall m: nat {:trigger AsksFor(c, nd, blocks, m)} :: m < k ==> (m in asked <==> AsksFor(c, nd, blocks, m)))
  }

  lemma {:induction false} AskedNone(c: Crypto, nd: Node, blocks: seq<Block>)
    ensures Asked(c, nd, blocks, 0, [], [])
  {
  }

  lemma {:induction false} AskedNext(c: Crypto, nd: Node, blocks: seq<Block>, k: nat, requests: seq<H256>,
        asked: seq<nat>)
    requires Asked(c, nd, blocks, k, requests, asked) && k < |blocks|
    ensures if AsksFor(c, nd, blocks, k) then Asked(c, nd, blocks, k + 1, requests + [blocks[k].head.parent], asked + [k])
            else Asked(c, nd, blocks, k + 1, requests + [], asked + [])
  {
    hide AsksFor;
    assert requests + [] == requests && asked + [] == asked;
    assert forall m: nat :: m in asked + [k] <==> m in asked || m == k;
  }

  lemma {:induction false} AskedMeans(c: Crypto, nd: Node, blocks: seq<Block>, requests: seq<H256>, asked: seq<nat>)
    requires Asked(c, nd, blocks, |blocks|, requests, asked)
    ensures |requests| == |asked| && forall j :: 0 <= j < |asked| ==>
      asked[j] < |blocks| && requests[j] == blocks[asked[j]].head.parent
    ensures forall i, j :: 0 <= i < j < |asked| ==> asked[i] < asked[j]
    ensures forall k: nat {:trigger AsksFor(c, nd, blocks, k)} :: k < |blocks| ==>
      (k in asked <==> AsksFor(c, nd, blocks, k))
  {
  }

  lemma {:induction false} DrainEnds(c: Crypto, nd: Node, newBlocks: seq<H256>, n: nat)
    requires n >= |newBlocks|
    ensures DrainFrom(c, nd, newBlocks, n, 0) == (nd, newBlocks)
  {
  }

  lemma {:induction false} DrainNext(c: Crypto, nd: Node, newBlocks: seq<H256>, n: nat, i: nat)
    requires n < |newBlocks| && i >= |nd.orphans|
    ensures DrainFrom(c, nd, newBlocks, n, i) == DrainFrom(c, nd, newBlocks, n + 1, 0)
  {
  }

  lemma {:induction false} DrainSkips(c: Crypto, nd: Node, newBlocks: seq<H256>, n: nat, i: nat)
    requires n < |newBlocks| && i < |nd.orphans| && nd.orphans[i].head.parent != newBlocks[n]
    ensures DrainFrom(c, nd, newBlocks, n, i) == DrainFrom(c, nd, newBlocks, n, i + 1)
  {
  }

  lemma {:induction false} DrainTries(c: Crypto, nd: Node, newBlocks: seq<H256>, n: nat, i: nat)
    requires n < |newBlocks| && i < |nd.orphans| && nd.orphans[i].head.parent == newBlocks[n]
    requires Ready(Without(nd, i), nd.orphans[i])
    ensures DrainFrom(c, nd, newBlocks, n, i) ==
      DrainFrom(c, Tried(c, Without(nd, i), nd.orphans[i]), Pushed(c, Without(nd, i), nd.orphans[i], newBlocks), n, i)
  {
  }

  /** Between messages, without any premise on bodies, the cached state of every stored block is the
      replay of the bodies stored on its path: when several bodies for one header wait in the
      buffer, all of them have been tried before anything was built on either. */
  lemma {:induction false} WorkerCacheReplays(c: Crypto, owner: Address, seen: set<Block>, nd: Node, h: H256)
    requires Settled(c, owner, seen, nd) && h in nd.chain.blocks
    ensures Tree(c, seen, nd.chain) && h in nd.cache
    ensures Valid(c, Initial(owner), PathTxs(c, seen, nd.chain, h))
    ensures nd.cache[h] == Replay(c, Initial(owner), PathTxs(c, seen, nd.chain, h))
  {
    CacheEqualsReplay(c, owner, seen, nd.chain, nd.cache, h);
  }

  // ---- The worker --------------------------------------------------------------------------

  /** The source's shared map `block_state`. */
  class BlockState {
    var entries: Cache

    constructor (c: Crypto, owner: Address)
      ensures entries == map[GenesisHash(c) := Initial(owner)]
    {
      entries := map[GenesisHash(c) := Initial(owner)];
    }
  }

  class Worker {
    const c: Crypto
    const blockchain: Blockchain
    const blockState: BlockState
    var orphanBlocks: seq<Block>

    ghost function View(): Node
      reads this, blockchain, blockState
    {
      Node(blockchain.View(), blockState.entries, orphanBlocks)
    }

    /** A worker on a new chain whose initial coins belong to `owner`. */
    constructor (c: Crypto, owner: Address)
      ensures View() == NewNode(c, owner) && this.c == c
      ensures orphanBlocks == [] && blockchain.blocks.Keys == {c.headerHash(Genesis().head)}
      ensures blockState.entries == map[c.headerHash(Genesis().head) := Initial(owner)]
      ensures fresh(blockchain) && fresh(blockState)
    {
      this.c := c;
      this.blockchain := new Blockchain(c);
      this.blockState := new BlockState(c, owner);
      orphanBlocks := [];
    }

    /** `check_tx_state`: stores the resulting state under the block's hash on success, and does
        nothing otherwise. */
    method CheckTxState(parentHash: H256, txs: seq<SignedTransaction>, blockHash: H256) returns (ok: bool)
      requires parentHash in blockState.entries
      modifies blockState
      ensures ok <==> Valid(c, old(blockState.entries)[parentHash], txs)
      ensures blockState.entries == if ok
        then old(blockState.entries)[blockHash := Replay(c, old(blockState.entries)[parentHash], txs)]
        else old(blockState.entries)
    {
      var state := blockState.entries[parentHash];
      ok, state := CheckTxs(c, state, txs);
      if ok {
        blockState.entries := blockState.entries[blockHash := state];
      }
    }

    /** Difficulty check, transaction check and insertion of a block whose parent is stored. */
    method TryAdopt(block: Block) returns (ok: bool)
      requires Ready(View(), block)
      modifies blockchain, blockState
      ensures ok <==> Admissible(c, old(View()).chain, old(View()).cache, block)
      ensures View() == Tried(c, old(View()), block)
      ensures var stored, entries := old(blockchain.blocks), old(blockState.entries);
        var h, parent := c.headerHash(block.head), block.head.parent;
        && (ok <==> block.head.difficulty == stored[parent].block.head.difficulty && Valid(c, entries[parent], block.txs))
        && blockchain.blocks == (if ok then stored[h := Stored(block, stored[parent].height + 1)] else stored)
        && blockState.entries == (if ok then entries[h := Replay(c, entries[parent], block.txs)] else entries)
      ensures orphanBlocks == old(orphanBlocks)
    {
      ok := false;
      if block.head.difficulty == blockchain.blocks[block.head.parent].block.head.difficulty {
        ok := CheckTxState(block.head.parent, block.txs, BlockHash(c, block));
        if ok {
          blockchain.Insert(c, block);
        }
      }
    }

    /** An orphan whose parent is stored leaves the buffer and is tried. */
    method Unorphan(i: nat) returns (block: Block, ok: bool)
      requires i < |orphanBlocks| && Ready(Without(View(), i), orphanBlocks[i])
      modifies this`orphanBlocks, blockchain, blockState
      ensures block == old(orphanBlocks)[i]
      ensures ok <==> Admissible(c, old(View()).chain, old(View()).cache, block)
      ensures View() == Tried(c, Without(old(View()), i), block)
      ensures orphanBlocks == old(orphanBlocks)[..i] + old(orphanBlocks)[i + 1..]
    {
      block := orphanBlocks[i];
      orphanBlocks := orphanBlocks[..i] + orphanBlocks[i + 1..];
      ok := TryAdopt(block);
    }

    /** The worklist: for each adopted hash in turn, every orphan waiting for it leaves the buffer
        and is tried, and its hash joins the list if it is adopted. */
    method Drain(ghost owner: Address, ghost seen: set<Block>, ghost done: set<Block>, ghost keys: set<H256>,
                 pushed: seq<H256>, start: nat)
      returns (newBlocks: seq<H256>)
      requires start <= |pushed| && Busy(c, owner, seen, done, View(), pushed[start..])
      requires Announced(c, keys, View(), pushed)
      modifies this`orphanBlocks, blockchain, blockState
      ensures Busy(c, owner, seen, done, View(), [])
      ensures Announced(c, keys, View(), newBlocks) && pushed <= newBlocks
      ensures (View(), newBlocks) == DrainFrom(c, old(View()), pushed, start, 0)
      ensures start == |pushed| ==> View() == old(View()) && newBlocks == pushed
      ensures forall o :: o in orphanBlocks ==> o in old(orphanBlocks)
    {
      hide Busy, Announced, Admissible, Inserted, Cached, DrainFrom;
      newBlocks := pushed;
      var n: nat := start;
      while n < |newBlocks|
        invariant n <= |newBlocks| && Busy(c, owner, seen, done, View(), newBlocks[n..])
        invariant Announced(c, keys, View(), newBlocks) && pushed <= newBlocks
        invariant start == |pushed| ==> View() == old(View()) && newBlocks == pushed && n == start
        invariant DrainFrom(c, View(), newBlocks, n, 0) == DrainFrom(c, old(View()), pushed, start, 0)
        invariant forall o :: o in orphanBlocks ==> o in old(orphanBlocks)
        decreases |orphanBlocks|, |newBlocks| - n
      {
        ghost var waiting, listed := |orphanBlocks|, |newBlocks|;
        var i := 0;
        while i < |orphanBlocks|
          invariant 0 <= i <= |orphanBlocks| && n < |newBlocks|
          invariant Busy(c, owner, seen, done, View(), newBlocks[n..])
          invariant Announced(c, keys, View(), newBlocks) && pushed <= newBlocks
          invariant DrainFrom(c, View(), newBlocks, n, i) == DrainFrom(c, old(View()), pushed, start, 0)
          invariant forall k :: 0 <= k < i ==> orphanBlocks[k].head.parent != newBlocks[n]
          invariant forall o :: o in orphanBlocks ==> o in old(orphanBlocks)
          invariant |orphanBlocks| < waiting || (|orphanBlocks| == waiting && |newBlocks| == listed)
          decreases |orphanBlocks| - i
        {
          if orphanBlocks[i].head.parent == newBlocks[n] {
            ghost var nd := View();
            OrphanReady(c, owner, seen, done, nd, newBlocks[n..], i);
            TryOrphan(c, owner, seen, done, nd, newBlocks[n..], i);
            TryOrphanAnnounces(c, keys, nd, newBlocks, i);
            RemovedOrphan(nd, i);
            DrainTries(c, nd, newBlocks, n, i);
            var block, ok := Unorphan(i);
            if ok {
              assert (newBlocks + [BlockHash(c, block)])[n..] == newBlocks[n..] + [BlockHash(c, block)];
              newBlocks := newBlocks + [BlockHash(c, block)];
            }
          } else {
            DrainSkips(c, View(), newBlocks, n, i);
            i := i + 1;
          }
        }
        DrainNext(c, View(), newBlocks, n, i);
        NextHead(c, owner, seen, done, View(), newBlocks, n);
        n := n + 1;
      }
      assert newBlocks[n..] == [];
      DrainEnds(c, View(), newBlocks, n);
    }

    /** One block of a message: skipped, tried and followed by its orphans, or buffered. Returns
        the extended worklist and, for a buffered block, the parent to ask for. */
    method HandleBlock(block: Block, ghost owner: Address, ghost all: set<Block>, ghost done: set<Block>,
                       ghost keys: set<H256>, pushed: seq<H256>)
      returns (newBlocks: seq<H256>, requests: seq<H256>)
      requires Busy(c, owner, all, done, View(), []) && Announced(c, keys, View(), pushed) && block in all
      modifies this`orphanBlocks, blockchain, blockState
      ensures Busy(c, owner, all, done + {block}, View(), []) && Announced(c, keys, View(), newBlocks)
      ensures forall o :: o in orphanBlocks ==> o in old(orphanBlocks) || o.head.parent in requests
      ensures forall p :: p in requests ==> p == block.head.parent && p !in View().chain.blocks
      ensures !WorkDone(c, block) || BlockHash(c, block) in old(View()).chain.blocks ==>
        View() == old(View()) && newBlocks == pushed && requests == []
      ensures requests == if Wanting(c, old(View()), block) then [block.head.parent] else []
      ensures Wanting(c, old(View()), block) ==> orphanBlocks == old(orphanBlocks) + [block]
      ensures WorkDone(c, block) && BlockHash(c, block) !in old(View()).chain.blocks ==>
        Taken(c, old(View()), block, pushed, View(), newBlocks, requests)
      ensures (View(), newBlocks) == Received(c, old(View()), pushed, block)
    {
      hide Busy, Admissible, Inserted, Cached, Announced, Le, DrainFrom;
      WorkIsNumeric(c, block);
      ghost var nd := View();
      newBlocks, requests := pushed, [];
      if Le(BlockHash(c, block), block.head.difficulty) && BlockHash(c, block) !in blockchain.blocks {
        if block.head.parent in blockchain.blocks {
          TryDirect(c, owner, all, done, nd, block);
          TryDirectAnnounces(c, keys, nd, pushed, block);
          var ok := TryAdopt(block);
          if ok {
            newBlocks := newBlocks + [BlockHash(c, block)];
            assert newBlocks[|pushed|] == BlockHash(c, block);
          }
          assert newBlocks[|pushed|..] == Pushed(c, nd, block, []);
          newBlocks := Drain(owner, all, done + {block}, keys, newBlocks, |pushed|);
          ListedIsStored(c, keys, View(), newBlocks);
        } else {
          Buffer(c, owner, all, done, nd, block);
          BufferAnnounces(c, keys, nd, pushed, block);
          orphanBlocks := orphanBlocks + [block];
          requests := [orphanBlocks[|orphanBlocks| - 1].head.parent];
          assert View() == Buffered(nd, block);
        }
      } else {
        Skip(c, owner, all, done, nd, block);
      }
    }

    /** The arm `Message::Blocks`. Returns the hashes to broadcast, which are exactly the keys added
        to the chain, and the parents to ask the peer for, one for each block of the message that is
        buffered and in their order: `asked` has the positions of those blocks. */
    method HandleBlocks(blocks: seq<Block>, ghost owner: Address, ghost seen: set<Block>)
      returns (newBlocks: seq<H256>, requests: seq<H256>, ghost asked: seq<nat>)
      requires Settled(c, owner, seen, View()) && HeadersDistinct(c, seen + SetOf(blocks))
      modifies this`orphanBlocks, blockchain, blockState
      ensures Settled(c, owner, seen + SetOf(blocks), View())
      ensures View().chain.blocks.Keys == old(View()).chain.blocks.Keys + SetOf(newBlocks)
      ensures SetOf(newBlocks) !! old(View()).chain.blocks.Keys
      ensures forall o :: o in orphanBlocks ==> o in old(orphanBlocks) || o.head.parent in requests
      ensures forall p :: p in requests ==> p !in old(View()).chain.blocks
      ensures (View(), newBlocks) == ReceivedAll(c, old(View()), blocks, |blocks|)
      ensures |requests| == |asked| && forall j :: 0 <= j < |asked| ==>
        asked[j] < |blocks| && requests[j] == blocks[asked[j]].head.parent
      ensures forall i, j :: 0 <= i < j < |asked| ==> asked[i] < asked[j]
      ensures forall k: nat {:trigger AsksFor(c, old(View()), blocks, k)} :: k < |blocks| ==>
        (k in asked <==> AsksFor(c, old(View()), blocks, k))
    {
      hide Busy, Settled, HeadersDistinct, Taken, WorkDone, Received, Wanting, Asked;
      ghost var all, keys, earlier := seen + SetOf(blocks), View().chain.blocks.Keys, seen - {Genesis()};
      newBlocks, requests, asked := [], [], [];
      AskedNone(c, View(), blocks);
      MessageStarts(c, owner, seen, all, View());
      ghost var done := earlier;
      for k := 0 to |blocks|
        invariant done == earlier + SetOf(blocks[..k])
        invariant Busy(c, owner, all, done, View(), []) && Announced(c, keys, View(), newBlocks)
        invariant forall o :: o in orphanBlocks ==> o in old(orphanBlocks) || o.head.parent in requests
        invariant forall p :: p in requests ==> p !in keys
        invariant Asked(c, old(View()), blocks, k, requests, asked)
        invariant (View(), newBlocks) == ReceivedAll(c, old(View()), blocks, k)
      {
        assert SetOf(blocks[..k + 1]) == SetOf(blocks[..k]) + {blocks[k]};
        var wanted;
        newBlocks, wanted := HandleBlock(blocks[k], owner, all, done, keys, newBlocks);
        AskedNext(c, old(View()), blocks, k, requests, asked);
        requests := requests + wanted;
        asked := asked + if AsksFor(c, old(View()), blocks, k) then [k] else [];
        done := done + {blocks[k]};
      }
      assert blocks[..|blocks|] == blocks;
      AskedMeans(c, old(View()), blocks, requests, asked);
      MessageEnds(c, owner, all, done, View());
    }
  }
}
