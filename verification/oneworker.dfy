/** When the cache replays the stored bodies of a node with a single network worker. The miner's
    committer is then the only other thread that inserts, so it matters which blocks the miner builds:
    `mine` is any set that holds them. */
module OneWorker {
  import opened Hash
  import opened Types
  import opened Ledger
  import opened Chains
  import opened ChainState
  import opened Arrival
  import opened Interleaving
  import opened Undisturbed
  import opened Confluence
  import R = Reception

  ghost predicate MinedAt(c: Crypto, mine: set<Block>, start: System, events: seq<Event>, k: nat)
    requires k < |events|
  {
    events[k].MinerReadsTip? ==> BuiltBlock(After(c, start, events, k).shared, events[k]) in mine
  }

  /** Every block the miner builds in the run is in `mine`. */
  ghost predicate Mines(c: Crypto, mine: set<Block>, start: System, events: seq<Event>) {
    forall k {:trigger MinedAt(c, mine, start, events, k)} :: 0 <= k < |events| ==> MinedAt(c, mine, start, events, k)
  }

  /** Forks happen only right above genesis, and between blocks that the miner does not build. */
  ghost predicate HarmlessForks(c: Crypto, owner: Address, u: set<Block>, mine: set<Block>) {
    forall path, b1, b2 {:trigger Fork(c, owner, u, path, b1, b2)} ::
      Fork(c, owner, u, path, b1, b2) ==> |path| == 1 && b1 !in mine && b2 !in mine
  }

  // ---- Harmless forks keep the replay ------------------------------------------------------

  /** The path starts with the child of genesis whose state is the cached one. */
  ghost predicate StartsAsCached(c: Crypto, owner: Address, cache: Cache, path: seq<Block>) {
    |path| > 1 ==> BlockHash(c, path[1]) in cache && cache[BlockHash(c, path[1])] == PathState(c, owner, path, 1)
  }

  ghost predicate AnchoredBy(c: Crypto, owner: Address, u: set<Block>, cache: Cache, path: seq<Block>, h: H256,
        s: Utxo) {
    ReachedBy(c, owner, u, path, h, s) && StartsAsCached(c, owner, cache, path)
  }

  ghost predicate Anchored(c: Crypto, owner: Address, u: set<Block>, cache: Cache, h: H256, s: Utxo) {
    exists path :: AnchoredBy(c, owner, u, cache, path, h, s)
  }

  ghost predicate AllAnchored(c: Crypto, owner: Address, u: set<Block>, cache: Cache) {
    forall h {:trigger Anchored(c, owner, u, cache, h, cache[h])} ::
      h in cache ==> Anchored(c, owner, u, cache, h, cache[h])
  }

  /** With harmless forks, paths that start as cached and end in one hash lead to one state. */
  lemma {:induction false} AnchoredOnce(c: Crypto, owner: Address, u: set<Block>, mine: set<Block>, cache: Cache,
        p: seq<Block>, q: seq<Block>, h: H256)
    requires HeadersDistinct(c, u) && HarmlessForks(c, owner, u, mine)
    requires AcceptedPath(c, owner, u, p) && AcceptedPath(c, owner, u, q) && EndsAt(c, p, h) && EndsAt(c, q, h)
    requires StartsAsCached(c, owner, cache, p) && StartsAsCached(c, owner, cache, q)
    ensures OneState(c, owner, p, q)
    decreases |p|
  {
    hide HeadersDistinct, WorkDone, GenesisDifficulty, Valid, Replay, AcceptedStep;
    SameHashes(c, owner, u, p, q, h);
    var n := |p| - 1;
    if n > 1 {
      FrontStartsAsCached(c, owner, u, cache, p);
      FrontStartsAsCached(c, owner, u, cache, q);
      AnchoredOnce(c, owner, u, mine, cache, p[..n], q[..n], p[n].head.parent);
      LastIsNext(c, owner, u, p);
      LastIsNext(c, owner, u, q);
      AcceptedFront(c, owner, u, p);
      AcceptedFront(c, owner, u, q);
      assert !Fork(c, owner, u, p[..n], p[n], q[n]);
    }
  }

  lemma {:induction false} FrontStartsAsCached(c: Crypto, owner: Address, u: set<Block>, cache: Cache, p: seq<Block>)
    requires AcceptedPath(c, owner, u, p) && StartsAsCached(c, owner, cache, p) && |p| > 2
    ensures var front := p[..|p| - 1];
      && AcceptedPath(c, owner, u, front) && EndsAt(c, front, p[|p| - 1].head.parent)
      && StartsAsCached(c, owner, cache, front)
  {
    hide AcceptedPath;
    AcceptedFront(c, owner, u, p);
    PathStatePrefix(c, owner, p[..|p| - 1], p[|p| - 1], 1);
    assert p == p[..|p| - 1] + [p[|p| - 1]];
  }

  lemma {:induction false} AnchoredStays(c: Crypto, owner: Address, u: set<Block>, cache: Cache, cache': Cache)
    requires AllAnchored(c, owner, u, cache) && CacheExtends(cache, cache')
    ensures forall h :: h in cache ==> Anchored(c, owner, u, cache', h, cache'[h])
  {
    hide ReachedBy, PathState;
    forall h | h in cache
      ensures Anchored(c, owner, u, cache', h, cache'[h])
    {
      assert Anchored(c, owner, u, cache, h, cache[h]);
      var p :| AnchoredBy(c, owner, u, cache, p, h, cache[h]);
      assert AnchoredBy(c, owner, u, cache', p, h, cache'[h]);
    }
  }

  /** The state under `h` is that of a child of genesis that the miner built. */
  ghost predicate MinedAs(c: Crypto, owner: Address, u: set<Block>, mine: set<Block>, cache: Cache, h: H256,
        m: Block) {
    && m in mine && m in u && BlockHash(c, m) == h && m.head.parent == GenesisHash(c)
    && Valid(c, Initial(owner), m.txs)
    && h in cache && cache[h] == Replay(c, Initial(owner), m.txs)
  }

  ghost predicate MinedState(c: Crypto, owner: Address, u: set<Block>, mine: set<Block>, cache: Cache, h: H256) {
    exists m :: MinedAs(c, owner, u, mine, cache, h, m)
  }

  /** A block right above genesis. */
  ghost predicate Low(c: Crypto, b: Block) {
    b.head.parent == GenesisHash(c)
  }

  lemma {:induction false} LowIsNext(c: Crypto, owner: Address, u: set<Block>, b: Block)
    requires HeadersDistinct(c, u) && Low(c, b) && Sound(c, u, b) && b.head.difficulty == GenesisDifficulty()
    requires Valid(c, Initial(owner), b.txs)
    ensures AcceptedPath(c, owner, u, [Genesis()]) && Next(c, owner, u, [Genesis()], b)
    ensures PathState(c, owner, [Genesis()], 0) == Initial(owner)
  {
    hide GenesisDifficulty, WorkDone, Valid;
  }

  /** Twins right above genesis have one state if the miner built one of them. */
  lemma {:induction false} LowTwinsAgree(c: Crypto, owner: Address, u: set<Block>, mine: set<Block>, b: Block,
        m: Block)
    requires HeadersDistinct(c, u) && HarmlessForks(c, owner, u, mine) && (b in mine || m in mine)
    requires Low(c, b) && Sound(c, u, b) && b.head.difficulty == GenesisDifficulty() && Valid(c, Initial(owner), b.txs)
    requires m in u && BlockHash(c, m) == BlockHash(c, b) && Valid(c, Initial(owner), m.txs)
    ensures Replay(c, Initial(owner), b.txs) == Replay(c, Initial(owner), m.txs)
  {
    hide GenesisDifficulty, Le, Valid, Replay, AcceptedPath, Next;
    assert HeadersAgree(c, b, m);
    LowIsNext(c, owner, u, b);
    LowIsNext(c, owner, u, m);
    assert !Fork(c, owner, u, [Genesis()], b, m);
  }

  /** An acceptable path to the hash of a block right above genesis has just its twin above genesis. */
  lemma {:induction false} LowPath(c: Crypto, owner: Address, u: set<Block>, b: Block, q: seq<Block>)
    requires HeadersDistinct(c, u) && Low(c, b) && Sound(c, u, b) && b.head.difficulty == GenesisDifficulty()
    requires Valid(c, Initial(owner), b.txs) && AcceptedPath(c, owner, u, q) && EndsAt(c, q, BlockHash(c, b))
    ensures |q| == 2 && q[1] in u && BlockHash(c, q[1]) == BlockHash(c, b) && Valid(c, Initial(owner), q[1].txs)
    ensures PathState(c, owner, q, 1) == Replay(c, Initial(owner), q[1].txs)
  {
    hide GenesisDifficulty, Le, WorkDone, Valid, Replay;
    var path := [Genesis()];
    LowIsNext(c, owner, u, b);
    NextExtends(c, owner, u, path, b);
    SameHashes(c, owner, u, path + [b], q, BlockHash(c, b));
    assert AcceptedStep(c, owner, u, q, 1) && PathState(c, owner, q, 0) == Initial(owner);
  }

  /** The block is mined, or whatever its hash holds is. */
  ghost predicate Covered(c: Crypto, owner: Address, u: set<Block>, mine: set<Block>, cache: Cache, b: Block) {
    Low(c, b) && BlockHash(c, b) in cache ==> b in mine || MinedState(c, owner, u, mine, cache, BlockHash(c, b))
  }

  lemma {:induction false} LowWriteAgrees(c: Crypto, owner: Address, u: set<Block>, mine: set<Block>, sh: Shared,
        b: Block, s: Utxo)
    requires HeadersDistinct(c, u) && HarmlessForks(c, owner, u, mine) && AllAnchored(c, owner, u, sh.cache)
    requires Checked(c, u, sh, b) && Low(c, b) && Covered(c, owner, u, mine, sh.cache, b)
    requires Valid(c, Initial(owner), b.txs) && s == Replay(c, Initial(owner), b.txs)
    ensures BlockHash(c, b) in sh.cache ==> sh.cache[BlockHash(c, b)] == s
  {
    hide GenesisDifficulty, Le, WorkDone, Valid, Replay, AcceptedPath, HarmlessForks, HeadersDistinct;
    var h, cache := BlockHash(c, b), sh.cache;
    if h in cache {
      if MinedState(c, owner, u, mine, cache, h) {
        var m :| MinedAs(c, owner, u, mine, cache, h, m);
        LowTwinsAgree(c, owner, u, mine, b, m);
      } else {
        assert Anchored(c, owner, u, cache, h, cache[h]);
        var q :| AnchoredBy(c, owner, u, cache, q, h, cache[h]);
        LowPath(c, owner, u, b, q);
        LowTwinsAgree(c, owner, u, mine, b, q[1]);
      }
    }
  }

  /** The state a thread is about to store is anchored, and repeats what is there or is new. */
  lemma {:induction false} HighWriteAgrees(c: Crypto, owner: Address, u: set<Block>, mine: set<Block>, sh: Shared,
        b: Block, s: Utxo)
    requires HeadersDistinct(c, u) && HarmlessForks(c, owner, u, mine) && AllAnchored(c, owner, u, sh.cache)
    requires Checked(c, u, sh, b) && !Low(c, b) && FaithfulPc(c, sh.cache, WriteState(b, s))
    ensures BlockHash(c, b) in sh.cache ==> sh.cache[BlockHash(c, b)] == s
    ensures Anchored(c, owner, u, sh.cache, BlockHash(c, b), s)
  {
    hide GenesisDifficulty, Le, WorkDone, Valid, Replay, AcceptedStep, HarmlessForks, HeadersDistinct;
    var h, cache, parent := BlockHash(c, b), sh.cache, b.head.parent;
    assert Anchored(c, owner, u, cache, parent, cache[parent]);
    var p :| AnchoredBy(c, owner, u, cache, p, parent, cache[parent]);
    assert Next(c, owner, u, p, b);
    NextExtends(c, owner, u, p, b);
    PathStatePrefix(c, owner, p, b, 1);
    assert AnchoredBy(c, owner, u, cache, p + [b], h, s);
    if h in cache {
      assert Anchored(c, owner, u, cache, h, cache[h]);
      var q :| AnchoredBy(c, owner, u, cache, q, h, cache[h]);
      AnchoredOnce(c, owner, u, mine, cache, p + [b], q, h);
    }
  }

  /** Storing a covered state keeps everything anchored. */
  lemma {:induction false} AnchoredWrite(c: Crypto, owner: Address, u: set<Block>, mine: set<Block>, sh: Shared,
        b: Block, s: Utxo)
    requires HeadersDistinct(c, u) && HarmlessForks(c, owner, u, mine) && AllAnchored(c, owner, u, sh.cache)
    requires Replayed(c, owner, sh.chain, sh.cache) && Covered(c, owner, u, mine, sh.cache, b)
    requires Checked(c, u, sh, b) && FaithfulPc(c, sh.cache, WriteState(b, s))
    ensures var cache' := sh.cache[BlockHash(c, b) := s];
      CacheExtends(sh.cache, cache') && AllAnchored(c, owner, u, cache')
  {
    hide GenesisDifficulty, Le, WorkDone, Valid, Replay, AcceptedPath, HarmlessForks, HeadersDistinct, Covered, Anchored;
    var h, cache := BlockHash(c, b), sh.cache;
    var cache' := cache[h := s];
    if Low(c, b) {
      LowWriteAgrees(c, owner, u, mine, sh, b, s);
      LowIsAnchored(c, owner, u, cache', b);
      AnchoredStays(c, owner, u, cache, cache');
    } else {
      HighWriteAgrees(c, owner, u, mine, sh, b, s);
      AnchoredStays(c, owner, u, cache, cache');
      OneAnchorStays(c, owner, u, cache, cache', h, s);
    }
  }

  lemma {:induction false} LowIsAnchored(c: Crypto, owner: Address, u: set<Block>, cache: Cache, b: Block)
    requires HeadersDistinct(c, u) && Low(c, b) && Sound(c, u, b) && b.head.difficulty == GenesisDifficulty()
    requires Valid(c, Initial(owner), b.txs)
    requires BlockHash(c, b) in cache && cache[BlockHash(c, b)] == Replay(c, Initial(owner), b.txs)
    ensures Anchored(c, owner, u, cache, BlockHash(c, b), cache[BlockHash(c, b)])
  {
    hide GenesisDifficulty, Le, WorkDone, Valid, Replay, AcceptedPath, HeadersDistinct, Next;
    LowIsNext(c, owner, u, b);
    NextExtends(c, owner, u, [Genesis()], b);
    assert AnchoredBy(c, owner, u, cache, [Genesis()] + [b], BlockHash(c, b), cache[BlockHash(c, b)]);
  }

  lemma {:induction false} OneAnchorStays(c: Crypto, owner: Address, u: set<Block>, cache: Cache, cache': Cache,
        h: H256, s: Utxo)
    requires Anchored(c, owner, u, cache, h, s) && CacheExtends(cache, cache')
    ensures Anchored(c, owner, u, cache', h, s)
  {
    hide ReachedBy, PathState;
    var p :| AnchoredBy(c, owner, u, cache, p, h, s);
    assert AnchoredBy(c, owner, u, cache', p, h, s);
  }

  // ---- Every step of a node with one network worker ----------------------------------------

  /** A block between its hash check and the insertion of its state is covered. */
  ghost predicate CoveredPc(c: Crypto, owner: Address, u: set<Block>, mine: set<Block>, cache: Cache, pc: Pc) {
    pc.AskParent? || pc.AskDifficulty? || pc.ReadState? || pc.WriteState? ==> Covered(c, owner, u, mine, cache, pc.b)
  }

  ghost predicate MinedPc(mine: set<Block>, pc: Pc) {
    pc.ReadState? || pc.WriteState? || pc.InsertBlock? ==> pc.b in mine
  }

  /** A cached hash is stored, or some thread is about to insert it. */
  ghost predicate Backed(c: Crypto, sh: Shared, pc1: Pc, pc2: Pc, h: H256) {
    || h in sh.chain.blocks
    || (pc1.InsertBlock? && BlockHash(c, pc1.b) == h)
    || (pc2.InsertBlock? && BlockHash(c, pc2.b) == h)
  }

  ghost predicate AllBacked(c: Crypto, sh: Shared, pc1: Pc, pc2: Pc) {
    forall h {:trigger Backed(c, sh, pc1, pc2, h)} :: h in sh.cache ==> Backed(c, sh, pc1, pc2, h)
  }

  ghost predicate NoneLow(c: Crypto, orphans: seq<Block>) {
    forall o {:trigger Low(c, o)} :: o in orphans ==> !Low(c, o)
  }

  /** What the worker and the committer keep between them. */
  ghost predicate Paired(c: Crypto, owner: Address, u: set<Block>, mine: set<Block>, sh: Shared, w: Worker, pc: Pc) {
    && AllAnchored(c, owner, u, sh.cache) && Replayed(c, owner, sh.chain, sh.cache)
    && FaithfulPc(c, sh.cache, w.pc) && FaithfulPc(c, sh.cache, pc)
    && CoveredPc(c, owner, u, mine, sh.cache, w.pc) && MinedPc(mine, pc)
    && NoneLow(c, w.orphans) && AllBacked(c, sh, w.pc, pc)
  }

  ghost predicate OneFaithful(c: Crypto, owner: Address, u: set<Block>, mine: set<Block>, sys: System) {
    && |sys.workers| == 1 && Paired(c, owner, u, mine, sys.shared, sys.workers[0], sys.committer)
    && (sys.miner.Built? ==> sys.miner.b in mine)
    && (forall b {:trigger b in sys.finished} :: b in sys.finished ==> b in mine)
  }

  lemma {:induction false} CoveredStays(c: Crypto, owner: Address, u: set<Block>, mine: set<Block>,
        cache: Cache, cache': Cache, b: Block)
    requires CacheExtends(cache, cache') && Covered(c, owner, u, mine, cache, b)
    requires BlockHash(c, b) in cache' ==> BlockHash(c, b) in cache
    ensures Covered(c, owner, u, mine, cache', b)
  {
    hide Valid, Replay;
    var h := BlockHash(c, b);
    if Low(c, b) && h in cache && MinedState(c, owner, u, mine, cache, h) {
      var m :| MinedAs(c, owner, u, mine, cache, h, m);
      assert MinedAs(c, owner, u, mine, cache', h, m);
    }
  }

  /** A cached hash that is not stored, as the worker finds it, comes from the committer. */
  lemma {:induction false} NewlyAsked(c: Crypto, owner: Address, u: set<Block>, mine: set<Block>, sh: Shared,
        w: Worker, pc: Pc, b: Block)
    requires HeadersDistinct(c, u) && Paired(c, owner, u, mine, sh, w, pc) && PcSafe(c, u, sh, pc)
    requires w.pc == AskKnown(b) && b in u && BlockHash(c, b) !in sh.chain.blocks
    ensures Covered(c, owner, u, mine, sh.cache, b)
  {
    hide GenesisDifficulty, WorkDone, Valid, Replay, AllAnchored, ReplayedAt;
    var h := BlockHash(c, b);
    if Low(c, b) && h in sh.cache {
      assert Backed(c, sh, w.pc, pc, h);
      assert HeadersAgree(c, b, pc.b);
      assert MinedAs(c, owner, u, mine, sh.cache, h, pc.b);
    }
  }

  /** A write by one of the two, seen by what both keep of the cache. */
  lemma {:induction false} PairedWrite(c: Crypto, owner: Address, u: set<Block>, mine: set<Block>, sh: Shared,
        b: Block, s: Utxo)
    requires HeadersDistinct(c, u) && HarmlessForks(c, owner, u, mine)
    requires AllAnchored(c, owner, u, sh.cache) && Replayed(c, owner, sh.chain, sh.cache)
    requires Checked(c, u, sh, b) && FaithfulPc(c, sh.cache, WriteState(b, s)) && Covered(c, owner, u, mine, sh.cache, b)
    ensures var cache' := sh.cache[BlockHash(c, b) := s];
      && CacheExtends(sh.cache, cache') && AllAnchored(c, owner, u, cache') && Replayed(c, owner, sh.chain, cache')
      && FaithfulPc(c, cache', InsertBlock(b))
  {
    hide GenesisDifficulty, WorkDone, Valid, Replay, AllAnchored, HeadersDistinct, Replayed, HarmlessForks, Covered;
    AnchoredWrite(c, owner, u, mine, sh, b, s);
    ReplayedStays(c, owner, sh.chain, sh.cache, sh.cache[BlockHash(c, b) := s]);
  }

  lemma {:induction false} WorkerStaysPaired(c: Crypto, owner: Address, u: set<Block>, mine: set<Block>, sh: Shared,
        w: Worker, pc: Pc)
    requires HeadersDistinct(c, u) && HarmlessForks(c, owner, u, mine)
    requires SharedSafe(c, u, sh) && WorkerSafe(c, u, sh, w) && PcSafe(c, u, sh, pc)
    requires Paired(c, owner, u, mine, sh, w, pc)
    ensures var (sh', w') := WorkerStep(c, sh, w); Paired(c, owner, u, mine, sh', w', pc)
  {
    if w.pc.WriteState? || w.pc.InsertBlock? {
      StoringStaysPaired(c, owner, u, mine, sh, w, pc);
    } else {
      AskingStaysPaired(c, owner, u, mine, sh, w, pc);
    }
  }

  lemma {:induction false} StoringStaysPaired(c: Crypto, owner: Address, u: set<Block>, mine: set<Block>, sh: Shared,
        w: Worker, pc: Pc)
    requires HeadersDistinct(c, u) && HarmlessForks(c, owner, u, mine) && SharedSafe(c, u, sh)
    requires PcSafe(c, u, sh, w.pc) && Paired(c, owner, u, mine, sh, w, pc)
    requires w.pc.WriteState? || w.pc.InsertBlock?
    ensures var (sh', w') := WorkerStep(c, sh, w); Paired(c, owner, u, mine, sh', w', pc)
  {
    hide GenesisDifficulty, WorkDone, Valid, Replay, AllAnchored, HeadersDistinct, Replayed, HarmlessForks, Covered, Worked;
    var (sh', w') := WorkerStep(c, sh, w);
    if w.pc.WriteState? {
      PairedWrite(c, owner, u, mine, sh, w.pc.b, w.pc.s);
      FaithfulPcStays(c, sh.cache, sh'.cache, pc);
    } else {
      ReplayedInsert(c, owner, u, sh, w.pc.b);
    }
    BackedStays(c, sh, w.pc, w'.pc, pc, sh');
  }

  lemma {:induction false} AskingStaysPaired(c: Crypto, owner: Address, u: set<Block>, mine: set<Block>, sh: Shared,
        w: Worker, pc: Pc)
    requires HeadersDistinct(c, u) && SharedSafe(c, u, sh) && WorkerSafe(c, u, sh, w) && PcSafe(c, u, sh, pc)
    requires Paired(c, owner, u, mine, sh, w, pc) && !w.pc.WriteState? && !w.pc.InsertBlock?
    ensures var (sh', w') := WorkerStep(c, sh, w); Paired(c, owner, u, mine, sh', w', pc)
  {
    hide GenesisDifficulty, WorkDone, Valid, Replay, AllAnchored, HeadersDistinct, Replayed, Covered, Worked, Tree;
    hide AllBacked, NoneLow;
    var (sh', w') := WorkerStep(c, sh, w);
    OrphansStayHigh(c, u, sh, w);
    BackedStays(c, sh, w.pc, w'.pc, pc, sh');
    match w.pc
    case AskKnown(b) =>
      if BlockHash(c, b) !in sh.chain.blocks {
        NewlyAsked(c, owner, u, mine, sh, w, pc, b);
      }
    case Drain =>
      if w'.pc.AskDifficulty? {
        NotLowIsCovered(c, owner, u, mine, sh.cache, w.orphans[w.i]);
      }
    case _ =>
  }

  /** The committer stores what the miner built. */
  lemma {:induction false} CommitterStaysPaired(c: Crypto, owner: Address, u: set<Block>, mine: set<Block>,
        sh: Shared,
        w: Worker, pc: Pc)
    requires HeadersDistinct(c, u) && HarmlessForks(c, owner, u, mine)
    requires SharedSafe(c, u, sh) && PcSafe(c, u, sh, w.pc) && PcSafe(c, u, sh, pc)
    requires Paired(c, owner, u, mine, sh, w, pc)
    ensures var (sh', pc') := CheckStep(c, sh, pc, NextBlock); Paired(c, owner, u, mine, sh', w, pc')
  {
    hide GenesisDifficulty, WorkDone, Valid, Replay, AllAnchored, HeadersDistinct, Replayed, HarmlessForks, Worked;
    var (sh', pc') := CheckStep(c, sh, pc, NextBlock);
    match pc
    case WriteState(b, s) =>
      PairedWrite(c, owner, u, mine, sh, b, s);
      FaithfulPcStays(c, sh.cache, sh'.cache, w.pc);
      CoveredByMined(c, owner, u, mine, sh, w.pc, b, s);
      hide Covered;
      BackedEither(c, sh, pc, w.pc);
      BackedStays(c, sh, pc, pc', w.pc, sh');
      BackedEither(c, sh', pc', w.pc);
    case InsertBlock(b) =>
      hide Covered;
      ReplayedInsert(c, owner, u, sh, b);
      BackedEither(c, sh, pc, w.pc);
      BackedStays(c, sh, pc, pc', w.pc, sh');
      BackedEither(c, sh', pc', w.pc);
    case _ =>
      hide Covered;
      BackedEither(c, sh, pc, w.pc);
      BackedStays(c, sh, pc, pc', w.pc, sh');
      BackedEither(c, sh', pc', w.pc);
  }

  lemma {:induction false} BackedEither(c: Crypto, sh: Shared, pc1: Pc, pc2: Pc)
    ensures AllBacked(c, sh, pc1, pc2) <==> AllBacked(c, sh, pc2, pc1)
  {
    assert forall h :: Backed(c, sh, pc1, pc2, h) <==> Backed(c, sh, pc2, pc1, h);
  }

  /** What the worker is checking stays covered when the committer stores the state of `m`. */
  lemma {:induction false} CoveredByMined(c: Crypto, owner: Address, u: set<Block>, mine: set<Block>, sh: Shared,
        pc: Pc, m: Block, s: Utxo)
    requires HeadersDistinct(c, u) && Replayed(c, owner, sh.chain, sh.cache) && PcSafe(c, u, sh, pc)
    requires CoveredPc(c, owner, u, mine, sh.cache, pc) && Checked(c, u, sh, m) && m in mine
    requires FaithfulPc(c, sh.cache, WriteState(m, s)) && CacheExtends(sh.cache, sh.cache[BlockHash(c, m) := s])
    ensures CoveredPc(c, owner, u, mine, sh.cache[BlockHash(c, m) := s], pc)
  {
    hide GenesisDifficulty, WorkDone, Valid, Replay, ReplayedAt;
    var cache' := sh.cache[BlockHash(c, m) := s];
    if (pc.AskParent? || pc.AskDifficulty? || pc.ReadState? || pc.WriteState?) && Low(c, pc.b) {
      var b := pc.b;
      if BlockHash(c, b) == BlockHash(c, m) {
        assert HeadersAgree(c, b, m);
        assert MinedAs(c, owner, u, mine, cache', BlockHash(c, b), m);
      } else {
        CoveredStays(c, owner, u, mine, sh.cache, cache', b);
      }
    }
  }

  lemma {:induction false} TakenIsPaired(c: Crypto, owner: Address, u: set<Block>, mine: set<Block>, sh: Shared,
        w: Worker, b: Block)
    requires Paired(c, owner, u, mine, sh, w, NextBlock) && b in mine
    ensures Paired(c, owner, u, mine, sh, w, ReadState(b))
  {
    hide AllAnchored, Replayed, CoveredPc;
    assert forall h :: Backed(c, sh, w.pc, NextBlock, h) ==> Backed(c, sh, w.pc, ReadState(b), h);
  }

  lemma {:induction false} StepStaysOne(c: Crypto, owner: Address, u: set<Block>, mine: set<Block>,
        sys: System, ev: Event)
    requires HeadersDistinct(c, u) && HarmlessForks(c, owner, u, mine) && Safe(c, u, sys)
    requires OneFaithful(c, owner, u, mine, sys) && (ev.MinerReadsTip? ==> BuiltBlock(sys.shared, ev) in mine)
    ensures OneFaithful(c, owner, u, mine, Step(c, sys, ev))
  {
    hide HeadersDistinct, HarmlessForks, SharedSafe, AllAnchored, Replayed, Covered, WorkDone, CheckStep, WorkerStep;
    assert WorkerSafe(c, u, sys.shared, sys.workers[0]);
    var sys' := Step(c, sys, ev);
    match ev
    case Network(id) =>
      if id < |sys.workers| {
        WorkerStaysPaired(c, owner, u, mine, sys.shared, sys.workers[0], sys.committer);
      }
    case Commit =>
      if sys.committer == NextBlock {
        if sys.finished != [] {
          assert sys.finished[0] in sys.finished;
          TakenIsPaired(c, owner, u, mine, sys.shared, sys.workers[0], sys.finished[0]);
          assert forall b :: b in sys.finished[1..] ==> b in sys.finished;
        }
      } else {
        CommitterStaysPaired(c, owner, u, mine, sys.shared, sys.workers[0], sys.committer);
      }
    case _ =>
  }

  lemma {:induction false} StartIsOne(c: Crypto, owner: Address, u: set<Block>, mine: set<Block>)
    ensures OneFaithful(c, owner, u, mine, Start(c, owner, 1))
  {
    hide GenesisDifficulty;
    assert AnchoredBy(c, owner, u, Start(c, owner, 1).shared.cache, [Genesis()], GenesisHash(c), Initial(owner));
  }

  lemma {:induction false} AlwaysOne(c: Crypto, owner: Address, u: set<Block>, mine: set<Block>,
        events: seq<Event>, k: nat)
    requires Universe(c, u, Start(c, owner, 1), events) && Mines(c, mine, Start(c, owner, 1), events)
    requires HarmlessForks(c, owner, u, mine) && k <= |events|
    ensures OneFaithful(c, owner, u, mine, After(c, Start(c, owner, 1), events, k))
  {
    hide Start, Step, Safe, OneFaithful, HarmlessForks, Universe;
    var start := Start(c, owner, 1);
    if k == 0 {
      StartIsOne(c, owner, u, mine);
    } else {
      AlwaysOne(c, owner, u, mine, events, k - 1);
      AlwaysSafe(c, owner, u, 1, events, k - 1);
      UniverseAt(c, u, start, events, k - 1);
      assert MinedAt(c, mine, start, events, k - 1);
      StepStaysOne(c, owner, u, mine, After(c, start, events, k - 1), events[k - 1]);
    }
  }

  /** Only blocks without a stored parent are buffered, and genesis is stored. */
  lemma {:induction false} OrphansStayHigh(c: Crypto, u: set<Block>, sh: Shared, w: Worker)
    requires Tree(c, u, sh.chain) && NoneLow(c, w.orphans)
    ensures NoneLow(c, WorkerStep(c, sh, w).1.orphans)
    ensures w.i < |w.orphans| ==> !Low(c, w.orphans[w.i])
  {
    hide WorkDone, Valid, Replay, GenesisDifficulty;
    assert w.i < |w.orphans| ==> w.orphans[w.i] in w.orphans;
  }

  lemma {:induction false} NotLowIsCovered(c: Crypto, owner: Address, u: set<Block>, mine: set<Block>,
        cache: Cache, b: Block)
    requires !Low(c, b)
    ensures Covered(c, owner, u, mine, cache, b)
  {
  }

  lemma {:induction false} BackedStays(c: Crypto, sh: Shared, pc1: Pc, pc1': Pc, pc2: Pc, sh': Shared)
    requires AllBacked(c, sh, pc1, pc2) && sh.chain.blocks.Keys <= sh'.chain.blocks.Keys
    requires pc1.InsertBlock? ==> pc1' == pc1 || BlockHash(c, pc1.b) in sh'.chain.blocks
    requires forall h :: h in sh'.cache ==> h in sh.cache || (pc1'.InsertBlock? && BlockHash(c, pc1'.b) == h)
    ensures AllBacked(c, sh', pc1', pc2)
  {
    forall h | h in sh'.cache
      ensures Backed(c, sh', pc1', pc2, h)
    {
      if h in sh.cache {
        assert Backed(c, sh, pc1, pc2, h);
      }
    }
  }

  // ---- Harmful forks break the replay ------------------------------------------------------

  /** A block whose parent is not stored is not stored either, and goes to the buffer. */
  lemma {:induction false} AloneBuffers(c: Crypto, u: set<Block>, sh: Shared, w: Worker) returns (n: nat)
    requires HeadersDistinct(c, u) && SharedSafe(c, u, sh) && Between(sh, w) && w.todo != []
    requires Sound(c, u, w.todo[0]) && w.todo[0].head.parent !in sh.chain.blocks
    requires w.todo[0].head.parent != ZeroHash()
    ensures Alone(c, sh, w, n) == (sh, w.(todo := w.todo[1..], orphans := w.orphans + [w.todo[0]]))
  {
    hide GenesisDifficulty, WorkDone, WorkerStep, Alone, Tree;
    var b := w.todo[0];
    NotStored(c, u, sh.chain, b);
    n := AloneReceives(c, sh, w);
    assert R.Received(c, NodeOf(sh, w), w.newBlocks, b) == (R.Buffered(NodeOf(sh, w), b), w.newBlocks);
  }

  lemma {:induction false} NotStored(c: Crypto, u: set<Block>, ch: Chain, b: Block)
    requires HeadersDistinct(c, u) && Tree(c, u, ch) && b in u
    requires b.head.parent !in ch.blocks && b.head.parent != ZeroHash()
    ensures BlockHash(c, b) !in ch.blocks
  {
    if BlockHash(c, b) in ch.blocks {
      assert Linked(c, u, ch, BlockHash(c, b));
    }
    HeaderUnderHash(c, u, ch, b);
  }

  ghost function Waiting(orphans: seq<Block>, newBlocks: seq<H256>): Worker {
    Worker([], orphans, newBlocks, 0, 0, Drain)
  }

  /** Two children of `x` wait when `x` arrives: it is adopted and the worklist opened. */
  lemma {:induction false} TwinsWait(c: Crypto, owner: Address, u: set<Block>, front: seq<Block>, sh: Shared,
        x: Block, b1: Block, b2: Block)
    returns (n: nat)
    requires HeadersDistinct(c, u) && Follows(c, owner, u, front, sh) && Next(c, owner, u, front, x)
    requires Sound(c, u, b1) && Sound(c, u, b2)
    requires b1.head.parent == BlockHash(c, x) && b2.head.parent == BlockHash(c, x)
    ensures x.head.parent in sh.chain.blocks && x.head.parent in sh.cache
    ensures Alone(c, sh, Holding([b1, b2, x], []), n) == (AdoptedBy(c, sh, x), Waiting([b1, b2], [BlockHash(c, x)]))
  {
    hide GenesisDifficulty, WorkDone, Valid, AcceptedPath, HeadersDistinct, Tree, Worked, WorkerStep, Alone;
    NextIsNew(c, owner, u, front, sh, x);
    TipStored(c, u, sh.chain);
    assert BlockHash(c, x) != ZeroHash() by {
      NotZero(c, u, x);
    }
    var w := Holding([b1, b2, x], []);
    var n1 := AloneBuffers(c, u, sh, w);
    var w1 := Holding([b2, x], [b1]);
    assert w.todo[1..] == w1.todo && w.orphans + [b1] == w1.orphans;
    assert Alone(c, sh, w, n1) == (sh, w1);
    var n2 := AloneBuffers(c, u, sh, w1);
    var w2 := Holding([x], [b1, b2]);
    assert w1.todo[1..] == w2.todo && w1.orphans + [b2] == w2.orphans;
    assert Alone(c, sh, w1, n2) == (sh, w2);
    AloneConcat(c, sh, w, n1, n2);
    var n3 := AloneOpens(c, sh, x, [b1, b2]);
    AloneConcat(c, sh, w, n1 + n2, n3);
    n := n1 + n2 + n3;
  }

  lemma {:induction false} NotZero(c: Crypto, u: set<Block>, b: Block)
    requires HeadersDistinct(c, u) && b in u
    ensures BlockHash(c, b) != ZeroHash()
  {
    assert NonZero(c, b);
  }

  /** A new admissible block is adopted and listed. */
  lemma {:induction false} AloneOpens(c: Crypto, sh: Shared, x: Block, orphans: seq<Block>) returns (n: nat)
    requires WorkDone(c, x) && BlockHash(c, x) !in sh.chain.blocks && sh.chain.blocks.Keys <= sh.cache.Keys
    requires x.head.parent in sh.chain.blocks && sh.chain.tip in sh.chain.blocks
    requires Admissible(c, sh.chain, sh.cache, x)
    ensures Alone(c, sh, Holding([x], orphans), n) == (AdoptedBy(c, sh, x), Waiting(orphans, [BlockHash(c, x)]))
  {
    hide WorkDone, Admissible, WorkerStep, Alone;
    var w, w1 := Holding([x], orphans), Worker([], orphans, [], 0, 0, AskKnown(x));
    AloneTakes(c, sh, x, orphans);
    var more := AloneHandlesBlock(c, sh, w1, x);
    assert w1.newBlocks + [BlockHash(c, x)] == [BlockHash(c, x)];
    AloneConcat(c, sh, w, 1, more);
    n := 1 + more;
  }

  /** The first of two waiting twins is adopted. */
  lemma {:induction false} FirstTwin(c: Crypto, sh: Shared, b1: Block, b2: Block, hx: H256) returns (n: nat)
    requires b1.head.parent == hx && hx in sh.chain.blocks && sh.chain.blocks.Keys <= sh.cache.Keys
    requires sh.chain.tip in sh.chain.blocks && Admissible(c, sh.chain, sh.cache, b1)
    ensures Alone(c, sh, Waiting([b1, b2], [hx]), n) == (AdoptedBy(c, sh, b1), Waiting([b2], [hx, BlockHash(c, b1)]))
  {
    hide Admissible, WorkerStep, Alone;
    var w := Waiting([b1, b2], [hx]);
    assert R.Without(NodeOf(sh, w), 0).orphans == [b2];
    assert w.newBlocks + [BlockHash(c, b1)] == [hx, BlockHash(c, b1)];
    n := AloneHandlesOrphan(c, sh, w);
  }

  /** The state of the second is stored over that of the first. */
  lemma {:induction false} SecondTwin(c: Crypto, sh: Shared, b: Block, newBlocks: seq<H256>)
    requires newBlocks != [] && newBlocks[0] == b.head.parent
    requires b.head.parent in sh.chain.blocks && b.head.parent in sh.cache && Admissible(c, sh.chain, sh.cache, b)
    ensures Alone(c, sh, Waiting([b], newBlocks), 4).0 == Written(c, sh, b, Replay(c, sh.cache[b.head.parent], b.txs))
  {
    hide Valid, Replay;
    var w := Waiting([b], newBlocks);
    var at := (pc: Pc) => (sh, Worker([], [], newBlocks, 0, 0, pc));
    assert w.orphans[..0] + w.orphans[1..] == [];
    assert Alone(c, sh, w, 0) == (sh, w);
    assert Alone(c, sh, w, 1) == at(AskDifficulty(b, b.head.parent));
    assert Alone(c, sh, w, 2) == at(ReadState(b));
    assert Alone(c, sh, w, 3) == at(WriteState(b, Replay(c, sh.cache[b.head.parent], b.txs)));
  }

  /** Storing a twin's state over an adopted block breaks the replay there. */
  lemma {:induction false} TwinWriteBreaks(c: Crypto, owner: Address, u: set<Block>, path: seq<Block>, sh: Shared,
        b1: Block, b2: Block)
    requires HeadersDistinct(c, u) && Follows(c, owner, u, path, sh) && Fork(c, owner, u, path, b1, b2)
    ensures b1.head.parent in sh.chain.blocks && b1.head.parent in sh.cache && sh.chain.tip in sh.chain.blocks
    ensures var s, sh1 := PathState(c, owner, path, |path| - 1), AdoptedBy(c, sh, b1);
      && Admissible(c, sh.chain, sh.cache, b1)
      && b2.head.parent in sh1.chain.blocks && b2.head.parent in sh1.cache && sh1.cache[b2.head.parent] == s
      && Admissible(c, sh1.chain, sh1.cache, b2)
      && Broken(c, s, b1, b2, Written(c, sh1, b2, Replay(c, s, b2.txs)))
  {
    hide GenesisDifficulty, WorkDone, Valid, Replay, AcceptedPath, Tree, Worked, HeadersDistinct;
    NextIsNew(c, owner, u, path, sh, b1);
    NextIsNew(c, owner, u, path, sh, b2);
    OwnParent(c, u, sh.chain, b1);
  }

  /** A fork higher up: one worker that holds both bodies as orphans stores the state of the second
      over the first. */
  lemma {:induction false} HighForkBreaks(c: Crypto, owner: Address, u: set<Block>, path: seq<Block>,
        b1: Block, b2: Block)
    returns (events: seq<Event>)
    requires HeadersDistinct(c, u) && Fork(c, owner, u, path, b1, b2) && |path| > 1
    ensures Universe(c, u, Start(c, owner, 1), events) && Continues([], events)
    ensures Broken(c, PathState(c, owner, path, |path| - 1), b1, b2, End(c, Start(c, owner, 1), events).shared)
  {
    hide Universe, GenesisDifficulty, Valid, Replay, WorkDone, HeadersDistinct, AcceptedPath, Alone, Tree, Worked, End, Broken;
    var start := Start(c, owner, 1);
    var front, x := path[..|path| - 1], path[|path| - 1];
    assert path == front + [x];
    LastIsNext(c, owner, u, path);
    var before := PathCanBeFollowed(c, owner, u, 1, front);
    var sh := End(c, start, before).shared;
    var n := AloneTwins(c, owner, u, front, sh, x, b1, b2);
    assert IdleAt(End(c, start, before), 0);
    events := ThenSend(c, u, start, before, 0, [b1, b2, x], n);
  }

  lemma {:induction false} AloneTwins(c: Crypto, owner: Address, u: set<Block>, front: seq<Block>, sh: Shared,
        x: Block, b1: Block, b2: Block)
    returns (n: nat)
    requires HeadersDistinct(c, u) && Follows(c, owner, u, front, sh) && Next(c, owner, u, front, x)
    requires Fork(c, owner, u, front + [x], b1, b2)
    ensures Broken(c, PathState(c, owner, front + [x], |front|), b1, b2, Alone(c, sh, Holding([b1, b2, x], []), n).0)
  {
    hide GenesisDifficulty, Valid, Replay, WorkDone, HeadersDistinct, AcceptedPath, Alone, Tree, Worked, Broken, Admissible;
    var w, hx := Holding([b1, b2, x], []), BlockHash(c, x);
    var n1 := TwinsWait(c, owner, u, front, sh, x, b1, b2);
    var sh1 := AdoptedBy(c, sh, x);
    AdoptedFollows(c, owner, u, front, sh, x);
    TwinWriteBreaks(c, owner, u, front + [x], sh1, b1, b2);
    var n2 := FirstTwin(c, sh1, b1, b2, hx);
    AloneConcat(c, sh, w, n1, n2);
    SecondTwin(c, AdoptedBy(c, sh1, b1), b2, [hx, BlockHash(c, b1)]);
    AloneConcat(c, sh, w, n1 + n2, 4);
    n := n1 + n2 + 4;
  }

  /** A fork right above genesis with one body mined: the worker stores the other first. */
  lemma {:induction false} LowForkBreaks(c: Crypto, owner: Address, u: set<Block>, mine: set<Block>,
        path: seq<Block>, b1: Block, b2: Block)
    returns (events: seq<Event>)
    requires HeadersDistinct(c, u) && Fork(c, owner, u, path, b1, b2) && |path| == 1 && b2 in mine
    ensures Universe(c, u, Start(c, owner, 1), events) && Mines(c, mine, Start(c, owner, 1), events)
    ensures Broken(c, PathState(c, owner, path, |path| - 1), b1, b2, End(c, Start(c, owner, 1), events).shared)
  {
    hide Universe, GenesisDifficulty, Valid, Replay, WorkDone, HeadersDistinct, AcceptedPath, Alone, Tree, Worked, End;
    hide Broken, Follows, Admissible, After;
    var start := Start(c, owner, 1);
    assert AcceptedPath(c, owner, u, path);
    StartFollows(c, owner, u, 1, path);
    var sh := start.shared;
    var mined := MineLow(c, owner, u, path, b2);
    TwinWriteBreaks(c, owner, u, path, sh, b1, b2);
    var n := AloneAdopts(c, owner, u, path, sh, Holding([b1], []), b1);
    events := ThenSend(c, u, start, mined, 0, [b1], n);
    ThenCommits(c, u, start, events, b2, PathState(c, owner, path, |path| - 1));
    events := events + [Commit] + [Commit];
    FirstMined(c, owner, mine, events, b2);
  }

  ghost function Find(b: Block): Event {
    MinerReadsTip(b.head.nonce, b.head.timestamp, b.head.merkleRoot, b.txs)
  }

  /** From the start, the miner builds `b` on genesis and the committer takes it. */
  lemma {:induction false} MineLow(c: Crypto, owner: Address, u: set<Block>, path: seq<Block>, b: Block)
    returns (events: seq<Event>)
    requires HeadersDistinct(c, u) && AcceptedPath(c, owner, u, path) && |path| == 1 && Next(c, owner, u, path, b)
    ensures Universe(c, u, Start(c, owner, 1), events) && events == [Find(b), MinerSends, Commit]
    ensures BuiltBlock(Start(c, owner, 1).shared, Find(b)) == b
    ensures End(c, Start(c, owner, 1), events) == Start(c, owner, 1).(committer := ReadState(b))
  {
    hide GenesisDifficulty, Valid, WorkDone, HeadersDistinct, Universe;
    var start := Start(c, owner, 1);
    assert BuiltBlock(start.shared, Find(b)) == b;
    StartUniverse(c, owner, u);
    ThenEvent(c, u, start, [], Find(b));
    ThenEvent(c, u, start, [] + [Find(b)], MinerSends);
    ThenEvent(c, u, start, [] + [Find(b)] + [MinerSends], Commit);
    events := [Find(b), MinerSends, Commit];
    assert events == [] + [Find(b)] + [MinerSends] + [Commit];
  }

  lemma {:induction false} StartUniverse(c: Crypto, owner: Address, u: set<Block>)
    requires HeadersDistinct(c, u)
    ensures Universe(c, u, Start(c, owner, 1), [])
  {
  }

  /** The committer checks its block and stores the state. */
  lemma {:induction false} ThenCommits(c: Crypto, u: set<Block>, start: System, events: seq<Event>, b: Block, s: Utxo)
    requires Universe(c, u, start, events)
    requires var sys := End(c, start, events);
      && sys.committer == ReadState(b) && b.head.parent in sys.shared.cache && sys.shared.cache[b.head.parent] == s
      && Valid(c, s, b.txs)
    ensures Universe(c, u, start, events + [Commit] + [Commit])
    ensures End(c, start, events + [Commit] + [Commit]).shared ==
      Written(c, End(c, start, events).shared, b, Replay(c, s, b.txs))
  {
    hide Universe, Valid, Replay, End;
    ThenEvent(c, u, start, events, Commit);
    ThenEvent(c, u, start, events + [Commit], Commit);
  }

  lemma {:induction false} FirstMined(c: Crypto, owner: Address, mine: set<Block>, events: seq<Event>, b: Block)
    requires Continues([Find(b)], events) && b in mine && BuiltBlock(Start(c, owner, 1).shared, Find(b)) == b
    ensures Mines(c, mine, Start(c, owner, 1), events)
  {
    hide Start;
    forall k | 0 <= k < |events|
      ensures MinedAt(c, mine, Start(c, owner, 1), events, k)
    {
      if k == 0 {
        assert events[0] == [Find(b)][0];
      }
    }
  }

  // ---- The exact condition -----------------------------------------------------------------

  lemma {:induction false} ForkIsSymmetric(c: Crypto, owner: Address, u: set<Block>, path: seq<Block>,
        b1: Block, b2: Block)
    requires Fork(c, owner, u, path, b1, b2)
    ensures Fork(c, owner, u, path, b2, b1)
  {
    hide AcceptedPath, Next, Replay;
  }

  /** Some run of one network worker, in which the miner builds only blocks of `mine`, breaks the replay. */
  lemma {:induction false} HarmfulForkBreaks(c: Crypto, owner: Address, u: set<Block>, mine: set<Block>,
        path: seq<Block>, b1: Block, b2: Block)
    returns (events: seq<Event>)
    requires HeadersDistinct(c, u) && Fork(c, owner, u, path, b1, b2)
    requires |path| > 1 || b1 in mine || b2 in mine
    ensures Universe(c, u, Start(c, owner, 1), events) && Mines(c, mine, Start(c, owner, 1), events)
    ensures !ReplaysAfter(c, owner, 1, events, |events|)
  {
    hide Universe, HeadersDistinct, AcceptedPath, Start, Next, PathState, Replay, ReplaysAfter, After;
    if |path| > 1 {
      events := HighForkBreaks(c, owner, u, path, b1, b2);
      NotReplayed(c, owner, u, 1, path, b1, b2, events);
    } else if b2 in mine {
      events := LowForkBreaks(c, owner, u, mine, path, b1, b2);
      NotReplayed(c, owner, u, 1, path, b1, b2, events);
    } else {
      ForkIsSymmetric(c, owner, u, path, b1, b2);
      events := LowForkBreaks(c, owner, u, mine, path, b2, b1);
      NotReplayed(c, owner, u, 1, path, b2, b1, events);
    }
  }

  /** The cache of a node with one network worker replays the stored bodies in every reachable state of every
      run over `u` in which the miner builds only blocks of `mine` if and only if forks happen only
      right above genesis and between blocks that are not in `mine`. */
  lemma {:induction false} ReplaysIffHarmless(c: Crypto, owner: Address, u: set<Block>, mine: set<Block>)
    requires HeadersDistinct(c, u)
    ensures HarmlessForks(c, owner, u, mine) <==>
      forall events, k {:trigger ReplaysAfter(c, owner, 1, events, k)} ::
        Universe(c, u, Start(c, owner, 1), events) && Mines(c, mine, Start(c, owner, 1), events)
        && 0 <= k <= |events| ==>
        ReplaysAfter(c, owner, 1, events, k)
  {
    hide HeadersDistinct, Universe, Fork, Start, Mines, Faithful;
    if HarmlessForks(c, owner, u, mine) {
      forall events, k | Universe(c, u, Start(c, owner, 1), events) && Mines(c, mine, Start(c, owner, 1), events)
        && 0 <= k <= |events|
        ensures ReplaysAfter(c, owner, 1, events, k)
      {
        AlwaysOne(c, owner, u, mine, events, k);
      }
    } else {
      var path, b1, b2 :| Fork(c, owner, u, path, b1, b2) && !(|path| == 1 && b1 !in mine && b2 !in mine);
      assert |path| > 1 || b1 in mine || b2 in mine by {
        ForkHasPath(c, owner, u, path, b1, b2);
      }
      var events := HarmfulForkBreaks(c, owner, u, mine, path, b1, b2);
    }
  }

  lemma {:induction false} ForkHasPath(c: Crypto, owner: Address, u: set<Block>, path: seq<Block>, b1: Block,
        b2: Block)
    requires Fork(c, owner, u, path, b1, b2)
    ensures path != []
  {
  }
}
