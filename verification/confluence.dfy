/** When the concurrent cache replays the stored bodies. If acceptable paths that end in one hash can
    lead to two states, two workers can leave one body stored under the other's state; so the
    premise of `Interleaving.CacheAlwaysReplays` is exact. */
module Confluence {
  import opened Hash
  import opened Types
  import opened Ledger
  import opened Chains
  import opened ChainState
  import opened Arrival
  import opened Interleaving
  import opened Undisturbed
  import Conservation

  // ---- One more block of a path ------------------------------------------------------------

  ghost predicate IdleAt(sys: System, id: nat) {
    WaitsAt(sys, id) && sys.workers[id].orphans == []
  }

  /** All network workers are idle, with nothing buffered. */
  ghost predicate Quiet(sys: System, workers: nat) {
    |sys.workers| == workers && forall id {:trigger IdleAt(sys, id)} :: 0 <= id < workers ==> IdleAt(sys, id)
  }

  /** The tip ends `path`, as high as it is long, under its state. */
  ghost predicate Follows(c: Crypto, owner: Address, u: set<Block>, path: seq<Block>, sh: Shared) {
    && SharedSafe(c, u, sh)
    && AcceptedPath(c, owner, u, path) && EndsAt(c, path, sh.chain.tip)
    && sh.chain.tip in sh.chain.blocks && sh.chain.blocks[sh.chain.tip].height == |path| - 1
    && sh.chain.tip in sh.cache && sh.cache[sh.chain.tip] == PathState(c, owner, path, |path| - 1)
  }

  /** `b` extends the path. */
  ghost predicate Next(c: Crypto, owner: Address, u: set<Block>, path: seq<Block>, b: Block) {
    && path != [] && EndsAt(c, path, b.head.parent)
    && Valid(c, PathState(c, owner, path, |path| - 1), b.txs)
    && Sound(c, u, b) && b.head.difficulty == GenesisDifficulty()
  }

  lemma {:induction false} NextExtends(c: Crypto, owner: Address, u: set<Block>, path: seq<Block>, b: Block)
    requires AcceptedPath(c, owner, u, path) && Next(c, owner, u, path, b)
    ensures AcceptedPath(c, owner, u, path + [b])
    ensures PathState(c, owner, path + [b], |path|) == Replay(c, PathState(c, owner, path, |path| - 1), b.txs)
  {
    hide GenesisDifficulty, Le, WorkDone, Valid, Replay;
    PathDifficulty(c, owner, u, path, |path| - 1);
    PathStatePrefix(c, owner, path, b, |path| - 1);
    assert AcceptedStep(c, owner, u, path + [b], |path|);
    ExtendPath(c, owner, u, path, b);
  }

  /** The next block of the path is not stored, its parent is, and it is admissible. */
  lemma {:induction false} NextIsNew(c: Crypto, owner: Address, u: set<Block>, path: seq<Block>, sh: Shared, b: Block)
    requires HeadersDistinct(c, u) && Follows(c, owner, u, path, sh) && Next(c, owner, u, path, b)
    ensures b.head.parent == sh.chain.tip && BlockHash(c, b) !in sh.chain.blocks
    ensures Checked(c, u, sh, b) && Admissible(c, sh.chain, sh.cache, b)
  {
    hide GenesisDifficulty, Le, WorkDone, Valid, AcceptedPath;
    if BlockHash(c, b) in sh.chain.blocks {
      TipIsHighest(c, u, sh.chain, BlockHash(c, b));
    }
    HeaderUnderHash(c, u, sh.chain, b);
    assert WorkedAt(c, sh.chain, sh.chain.tip);
  }

  ghost function AdoptedBy(c: Crypto, sh: Shared, b: Block): Shared
    requires b.head.parent in sh.chain.blocks && sh.chain.tip in sh.chain.blocks && b.head.parent in sh.cache
  {
    Shared(Inserted(c, sh.chain, b), Cached(c, sh.cache, b))
  }

  lemma {:induction false} AdoptedFollows(c: Crypto, owner: Address, u: set<Block>, path: seq<Block>,
        sh: Shared, b: Block)
    requires HeadersDistinct(c, u) && Follows(c, owner, u, path, sh) && Next(c, owner, u, path, b)
    requires b.head.parent in sh.chain.blocks && b.head.parent in sh.cache
    ensures Follows(c, owner, u, path + [b], AdoptedBy(c, sh, b))
  {
    hide GenesisDifficulty, Le, WorkDone, Valid, Replay, HeadersDistinct;
    NextIsNew(c, owner, u, path, sh, b);
    NextExtends(c, owner, u, path, b);
    InsertKeepsTree(c, u, sh.chain, b);
    InsertKeepsWork(c, u, sh.chain, b);
  }

  /** Alone, an idle worker that is sent the next block adopts it and is idle again. */
  lemma {:induction false} AloneAdopts(c: Crypto, owner: Address, u: set<Block>, path: seq<Block>, sh: Shared,
        w: Worker, b: Block)
    returns (n: nat)
    requires HeadersDistinct(c, u) && Follows(c, owner, u, path, sh) && Next(c, owner, u, path, b)
    requires w == Holding([b], [])
    ensures b.head.parent in sh.chain.blocks && b.head.parent in sh.cache
    ensures Alone(c, sh, w, n) == (AdoptedBy(c, sh, b), Worker([], [], [BlockHash(c, b)], 1, 0, NextBlock))
  {
    hide GenesisDifficulty, Le, WorkDone, Valid, AcceptedPath, HeadersDistinct, Tree, Worked, WorkerStep, Alone;
    NextIsNew(c, owner, u, path, sh, b);
    var w1 := Worker([], [], [], 0, 0, AskKnown(b));
    AloneTakes(c, sh, b, []);
    var tries := AloneHandlesBlock(c, sh, w1, b);
    var (sh2, w2) := Alone(c, sh, w1, tries);
    assert w2 == Worker([], [], [BlockHash(c, b)], 0, 0, Drain) && sh2 == AdoptedBy(c, sh, b);
    AloneConcat(c, sh, w, 1, tries);
    AloneFinishes(c, sh2, BlockHash(c, b));
    AloneConcat(c, sh, w, 1 + tries, 2);
    n := 1 + tries + 2;
  }

  lemma {:induction false} AloneTakes(c: Crypto, sh: Shared, b: Block, orphans: seq<Block>)
    requires WorkDone(c, b)
    ensures Alone(c, sh, Holding([b], orphans), 1) == (sh, Worker([], orphans, [], 0, 0, AskKnown(b)))
  {
    hide WorkDone;
    assert [b][1..] == [];
    assert Alone(c, sh, Holding([b], orphans), 0) == (sh, Holding([b], orphans));
  }

  lemma {:induction false} AloneFinishes(c: Crypto, sh: Shared, h: H256)
    ensures Alone(c, sh, Worker([], [], [h], 0, 0, Drain), 2) == (sh, Worker([], [], [h], 1, 0, NextBlock))
  {
    var w := Worker([], [], [h], 0, 0, Drain);
    assert Alone(c, sh, w, 0) == (sh, w);
    assert Alone(c, sh, w, 1) == (sh, Worker([], [], [h], 1, 0, Drain));
  }

  /** Every acceptable path is followed in some run. */
  lemma {:induction false} PathCanBeFollowed(c: Crypto, owner: Address, u: set<Block>, workers: nat, path: seq<Block>)
    returns (events: seq<Event>)
    requires HeadersDistinct(c, u) && workers >= 1 && AcceptedPath(c, owner, u, path)
    ensures Universe(c, u, Start(c, owner, workers), events) && Continues([], events)
    ensures var sys := End(c, Start(c, owner, workers), events);
      Quiet(sys, workers) && Follows(c, owner, u, path, sys.shared)
    decreases |path|
  {
    hide HeadersDistinct, Tree, Worked, WorkDone, GenesisDifficulty, Next, Step, Alone, AcceptedStep;
    var start := Start(c, owner, workers);
    if |path| == 1 {
      events := [];
      StartFollows(c, owner, u, workers, path);
    } else {
      var front, b := path[..|path| - 1], path[|path| - 1];
      LastIsNext(c, owner, u, path);
      var before := PathCanBeFollowed(c, owner, u, workers, front);
      var sys := End(c, start, before);
      assert IdleAt(sys, 0);
      var n := AloneAdopts(c, owner, u, front, sys.shared, Holding([b], []), b);
      events := ThenSend(c, u, start, before, 0, [b], n);
      AdoptedFollows(c, owner, u, front, sys.shared, b);
      assert front + [b] == path;
      StaysQuiet(c, sys, End(c, start, events), workers);
    }
  }

  lemma {:induction false} StartFollows(c: Crypto, owner: Address, u: set<Block>, workers: nat, path: seq<Block>)
    requires HeadersDistinct(c, u) && workers >= 1 && AcceptedPath(c, owner, u, path) && |path| == 1
    ensures Universe(c, u, Start(c, owner, workers), []) && Quiet(Start(c, owner, workers), workers)
    ensures Follows(c, owner, u, path, Start(c, owner, workers).shared)
  {
    hide GenesisDifficulty;
    StartIsSafe(c, owner, u, workers);
  }

  lemma {:induction false} StaysQuiet(c: Crypto, sys: System, sys': System, workers: nat)
    requires Quiet(sys, workers) && workers >= 1 && IdleAt(sys', 0)
    requires sys'.workers == sys.workers[0 := sys'.workers[0]]
    ensures Quiet(sys', workers)
  {
    forall id | 0 <= id < workers
      ensures IdleAt(sys', id)
    {
      assert IdleAt(sys, id);
    }
  }

  lemma {:induction false} LastIsNext(c: Crypto, owner: Address, u: set<Block>, path: seq<Block>)
    requires AcceptedPath(c, owner, u, path) && |path| > 1
    ensures AcceptedPath(c, owner, u, path[..|path| - 1])
    ensures Next(c, owner, u, path[..|path| - 1], path[|path| - 1]) && path[|path| - 1] in u
  {
    hide GenesisDifficulty, Le, WorkDone, Valid;
    AcceptedFront(c, owner, u, path);
    PathDifficulty(c, owner, u, path, |path| - 1);
    assert AcceptedStep(c, owner, u, path, |path| - 1);
  }

  // ---- The crossed run ---------------------------------------------------------------------

  /** Two bodies under one header extend one path to two states. */
  ghost predicate Fork(c: Crypto, owner: Address, u: set<Block>, path: seq<Block>, b1: Block, b2: Block) {
    && path != [] && b1.head == b2.head
    && (var s := PathState(c, owner, path, |path| - 1); Replay(c, s, b1.txs) != Replay(c, s, b2.txs))
    && AcceptedPath(c, owner, u, path) && Next(c, owner, u, path, b1) && Next(c, owner, u, path, b2)
  }

  /** One body of a fork is stored under the state of the other, on the state of their parent. */
  ghost predicate Broken(c: Crypto, s: Utxo, b1: Block, b2: Block, sh: Shared) {
    && BlockHash(c, b1) in sh.chain.blocks && sh.chain.blocks[BlockHash(c, b1)].block == b1
    && BlockHash(c, b1) in sh.cache && sh.cache[BlockHash(c, b1)] == Replay(c, s, b2.txs)
    && b1.head.parent in sh.cache && sh.cache[b1.head.parent] == s
  }

  /** Where confluence fails there is a fork: the first block at which the two paths part. */
  lemma {:induction false} PathsFork(c: Crypto, owner: Address, u: set<Block>, p: seq<Block>, q: seq<Block>, h: H256)
    returns (path: seq<Block>, b1: Block, b2: Block)
    requires HeadersDistinct(c, u) && AcceptedPath(c, owner, u, p) && AcceptedPath(c, owner, u, q)
    requires EndsAt(c, p, h) && EndsAt(c, q, h) && !OneState(c, owner, p, q)
    ensures Fork(c, owner, u, path, b1, b2)
    decreases |p|
  {
    hide HeadersDistinct, WorkDone, GenesisDifficulty, Valid, Replay;
    SameHashes(c, owner, u, p, q, h);
    var n := |p| - 1;
    assert n > 0;
    AcceptedFront(c, owner, u, p);
    AcceptedFront(c, owner, u, q);
    if OneState(c, owner, p[..n], q[..n]) {
      path, b1, b2 := p[..n], p[n], q[n];
      LastIsNext(c, owner, u, p);
      LastIsNext(c, owner, u, q);
    } else {
      path, b1, b2 := PathsFork(c, owner, u, p[..n], q[..n], p[n].head.parent);
    }
  }

  lemma {:induction false} ForkParts(c: Crypto, owner: Address, u: set<Block>, path: seq<Block>, b1: Block, b2: Block)
    requires Fork(c, owner, u, path, b1, b2)
    ensures AcceptedPath(c, owner, u, path + [b1]) && EndsAt(c, path + [b1], BlockHash(c, b1))
    ensures AcceptedPath(c, owner, u, path + [b2]) && EndsAt(c, path + [b2], BlockHash(c, b1))
    ensures !OneState(c, owner, path + [b1], path + [b2])
  {
    hide AcceptedPath, GenesisDifficulty, WorkDone, Valid, Replay;
    NextExtends(c, owner, u, path, b1);
    NextExtends(c, owner, u, path, b2);
  }

  /** The condition, locally: no acceptable path is extended to two states by two bodies under one
      header. */
  lemma {:induction false} ConfluentIffNoFork(c: Crypto, owner: Address, u: set<Block>)
    requires HeadersDistinct(c, u)
    ensures Confluent(c, owner, u) <==> forall path, b1, b2 :: !Fork(c, owner, u, path, b1, b2)
  {
    hide HeadersDistinct, AcceptedPath, PathState, GenesisDifficulty, WorkDone, Valid, Replay;
    if Confluent(c, owner, u) {
      forall path, b1, b2
        ensures !Fork(c, owner, u, path, b1, b2)
      {
        if Fork(c, owner, u, path, b1, b2) {
          ForkParts(c, owner, u, path, b1, b2);
        }
      }
    } else {
      var p, q, h :| AcceptedPath(c, owner, u, p) && AcceptedPath(c, owner, u, q)
        && EndsAt(c, p, h) && EndsAt(c, q, h) && !OneState(c, owner, p, q);
      var path, b1, b2 := PathsFork(c, owner, u, p, q, h);
    }
  }

  /** A worker that holds an admissible block goes on to store its state, then its block. */
  lemma {:induction false} AloneToWrite(c: Crypto, sh: Shared, b: Block)
    requires WorkDone(c, b) && BlockHash(c, b) !in sh.chain.blocks
    requires b.head.parent in sh.chain.blocks && b.head.parent in sh.cache && Admissible(c, sh.chain, sh.cache, b)
    ensures Alone(c, sh, Holding([b], []), 5) == (sh, At(WriteState(b, Replay(c, sh.cache[b.head.parent], b.txs))))
  {
    hide WorkDone, Valid, Replay;
    AloneTakes(c, sh, b, []);
    assert Alone(c, sh, Holding([b], []), 2) == (sh, At(AskParent(b)));
    assert Alone(c, sh, Holding([b], []), 3) == (sh, At(AskDifficulty(b, b.head.parent)));
    assert Alone(c, sh, Holding([b], []), 4) == (sh, At(ReadState(b)));
  }

  ghost function At(pc: Pc): Worker {
    Worker([], [], [], 0, 0, pc)
  }

  ghost function Written(c: Crypto, sh: Shared, b: Block, s: Utxo): Shared {
    sh.(cache := sh.cache[BlockHash(c, b) := s])
  }

  lemma {:induction false} AloneWrites(c: Crypto, sh: Shared, b: Block, s: Utxo)
    ensures Alone(c, sh, At(WriteState(b, s)), 1) == (Written(c, sh, b, s), At(InsertBlock(b)))
  {
    assert Alone(c, sh, At(WriteState(b, s)), 0) == (sh, At(WriteState(b, s)));
  }

  lemma {:induction false} AloneInserts(c: Crypto, u: set<Block>, sh: Shared, b: Block)
    requires Tree(c, u, sh.chain) && b.head.parent in sh.chain.blocks
    ensures sh.chain.tip in sh.chain.blocks
    ensures Alone(c, sh, At(InsertBlock(b)), 1).0 == sh.(chain := Inserted(c, sh.chain, b))
  {
    assert Alone(c, sh, At(InsertBlock(b)), 0) == (sh, At(InsertBlock(b)));
  }

  ghost predicate BothAt(sys: System, sh: Shared, pc0: Pc, pc1: Pc) {
    && |sys.workers| >= 2 && sys.shared == sh && sys.workers[0] == At(pc0) && sys.workers[1] == At(pc1)
  }

  /** Two workers about to store different states under one hash: the first stores its state first
      and its block last. */
  lemma {:induction false} CrossOver(c: Crypto, u: set<Block>, start: System, events: seq<Event>, sh: Shared,
        b1: Block, s1: Utxo, b2: Block, s2: Utxo)
    returns (more: seq<Event>)
    requires Universe(c, u, start, events)
    requires BothAt(End(c, start, events), sh, WriteState(b1, s1), WriteState(b2, s2))
    requires SharedSafe(c, u, sh) && Checked(c, u, sh, b1) && Checked(c, u, sh, b2) && b1.head == b2.head
    ensures Universe(c, u, start, more)
    ensures var sh' := End(c, start, more).shared;
      && BlockHash(c, b1) in sh'.chain.blocks && sh'.chain.blocks[BlockHash(c, b1)].block == b1
      && sh'.cache == Written(c, Written(c, sh, b1, s1), b2, s2).cache
  {
    hide Universe, GenesisDifficulty, WorkDone, Alone, End, Tree, Worked, HeadersDistinct;
    InUniverse(c, u, start, events);
    more := ThenAlone(c, u, start, events, 0, 1);
    AloneWrites(c, sh, b1, s1);
    var sh1 := Written(c, sh, b1, s1);
    assert BothAt(End(c, start, more), sh1, InsertBlock(b1), WriteState(b2, s2));
    more := ThenAlone(c, u, start, more, 1, 1);
    AloneWrites(c, sh1, b2, s2);
    var sh2 := Written(c, sh1, b2, s2);
    assert BothAt(End(c, start, more), sh2, InsertBlock(b1), InsertBlock(b2));
    more := ThenAlone(c, u, start, more, 1, 1);
    AloneInserts(c, u, sh2, b2);
    InsertKeepsTree(c, u, sh2.chain, b2);
    var sh3 := sh2.(chain := Inserted(c, sh2.chain, b2));
    assert End(c, start, more).shared == sh3 && End(c, start, more).workers[0] == At(InsertBlock(b1));
    more := ThenAlone(c, u, start, more, 0, 1);
    AloneInserts(c, u, sh3, b1);
  }

  lemma {:induction false} InUniverse(c: Crypto, u: set<Block>, start: System, events: seq<Event>)
    requires Universe(c, u, start, events)
    ensures HeadersDistinct(c, u)
  {
  }

  /** From a fork, a run of two workers that ends with one body stored under the other's state. */
  lemma {:induction false} ForkBreaksReplay(c: Crypto, owner: Address, u: set<Block>, workers: nat,
        path: seq<Block>, b1: Block, b2: Block)
    returns (events: seq<Event>)
    requires HeadersDistinct(c, u) && workers >= 2 && Fork(c, owner, u, path, b1, b2)
    ensures Universe(c, u, Start(c, owner, workers), events)
    ensures Broken(c, PathState(c, owner, path, |path| - 1), b1, b2, End(c, Start(c, owner, workers), events).shared)
  {
    hide Universe, GenesisDifficulty, Valid, Replay, WorkDone, HeadersDistinct, AcceptedPath, Alone, Tree, Worked, End;
    var start := Start(c, owner, workers);
    var before := PathCanBeFollowed(c, owner, u, workers, path);
    var sh := End(c, start, before).shared;
    var s := PathState(c, owner, path, |path| - 1);
    var s1, s2 := Replay(c, s, b1.txs), Replay(c, s, b2.txs);
    NextIsNew(c, owner, u, path, sh, b1);
    NextIsNew(c, owner, u, path, sh, b2);
    AloneToWrite(c, sh, b1);
    AloneToWrite(c, sh, b2);
    assert IdleAt(End(c, start, before), 0) && IdleAt(End(c, start, before), 1);
    events := ThenSend(c, u, start, before, 1, [b2], 5);
    events := ThenSend(c, u, start, events, 0, [b1], 5);
    assert BothAt(End(c, start, events), sh, WriteState(b1, s1), WriteState(b2, s2));
    events := CrossOver(c, u, start, events, sh, b1, s1, b2, s2);
    OwnParent(c, u, sh.chain, b1);
  }

  /** The case right above genesis: two children of genesis under one header, one empty and one with a payment of
      the initial coin. The empty one ends stored, with the state after the payment. */
  lemma {:induction false} GenesisTwins(c: Crypto, owner: Address, head: Header, st: SignedTransaction, workers: nat)
    returns (events: seq<Event>)
    requires HeadersDistinct(c, {Genesis(), Block(head, []), Block(head, [st])}) && workers >= 2
    requires head.parent == GenesisHash(c) && head.difficulty == GenesisDifficulty()
    requires WorkDone(c, Block(head, []))
    requires Passes(c, Initial(owner), st) && Updated(c, Initial(owner), st) != Initial(owner)
    ensures Universe(c, {Genesis(), Block(head, []), Block(head, [st])}, Start(c, owner, workers), events)
    ensures var sh, h := End(c, Start(c, owner, workers), events).shared, BlockHash(c, Block(head, []));
      && h in sh.chain.blocks && sh.chain.blocks[h].block == Block(head, [])
      && h in sh.cache && sh.cache[h] == Updated(c, Initial(owner), st)
  {
    hide Genesis, GenesisDifficulty, Le, HeadersDistinct, Passes, Updated;
    var path, b1, b2 := [Genesis()], Block(head, []), Block(head, [st]);
    var u := {Genesis(), b1, b2};
    Conservation.AcceptedAlone(c, Initial(owner), st);
    assert AcceptedPath(c, owner, u, path) && PathState(c, owner, path, 0) == Initial(owner);
    assert Replay(c, Initial(owner), []) == Initial(owner);
    assert Fork(c, owner, u, path, b1, b2);
    events := ForkBreaksReplay(c, owner, u, workers, path, b1, b2);
  }

  // ---- The exact condition -----------------------------------------------------------------

  ghost predicate ReplaysAfter(c: Crypto, owner: Address, workers: nat, events: seq<Event>, k: nat)
    requires k <= |events|
  {
    var sh := After(c, Start(c, owner, workers), events, k).shared;
    Replayed(c, owner, sh.chain, sh.cache)
  }

  /** The cache of a node with two or more network workers replays the stored bodies in every reachable
      state of every run over `u` if and only if acceptable paths over `u` that end in one hash
      lead to one state. */
  lemma {:induction false} ReplaysIffConfluent(c: Crypto, owner: Address, u: set<Block>, workers: nat)
    requires HeadersDistinct(c, u) && workers >= 2
    ensures Confluent(c, owner, u) <==>
      forall events, k {:trigger ReplaysAfter(c, owner, workers, events, k)} ::
        Universe(c, u, Start(c, owner, workers), events) && 0 <= k <= |events| ==>
        ReplaysAfter(c, owner, workers, events, k)
  {
    hide HeadersDistinct, Universe, AcceptedPath, OneState, Fork, Start, Replayed, Tree;
    if Confluent(c, owner, u) {
      forall events, k | Universe(c, u, Start(c, owner, workers), events) && 0 <= k <= |events|
        ensures ReplaysAfter(c, owner, workers, events, k)
      {
        CacheAlwaysReplays(c, owner, u, workers, events, k);
      }
    } else {
      ConfluentIffNoFork(c, owner, u);
      var path, b1, b2 :| Fork(c, owner, u, path, b1, b2);
      var events := ForkBreaksReplay(c, owner, u, workers, path, b1, b2);
      NotReplayed(c, owner, u, workers, path, b1, b2, events);
    }
  }

  lemma {:induction false} NotReplayed(c: Crypto, owner: Address, u: set<Block>, workers: nat,
        path: seq<Block>, b1: Block, b2: Block, events: seq<Event>)
    requires Universe(c, u, Start(c, owner, workers), events) && Fork(c, owner, u, path, b1, b2)
    requires Broken(c, PathState(c, owner, path, |path| - 1), b1, b2, End(c, Start(c, owner, workers), events).shared)
    ensures !ReplaysAfter(c, owner, workers, events, |events|)
  {
    hide Universe, GenesisDifficulty, Valid, Replay, WorkDone, AcceptedPath, Start;
    InUniverse(c, u, Start(c, owner, workers), events);
    var sh := End(c, Start(c, owner, workers), events).shared;
    StepParent(c, owner, u, path, |path| - 1);
    assert NonZero(c, path[|path| - 1]) && HeadersAgree(c, b1, Genesis());
    assert BlockHash(c, b1) != GenesisHash(c);
    assert !ReplayedAt(c, sh.chain, sh.cache, BlockHash(c, b1));
  }
}
