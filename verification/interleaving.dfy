/** Any number of network workers, the miner, its worker and the generator, sharing one chain and
    one state cache. Each `lock()` scope of the source is one atomic step; an `unwrap` on a
    missing key is a step into `Panicked`. The theorems are about every sequence of steps. */
module Interleaving {
  import opened Hash
  import opened Types
  import opened Ledger
  import opened Accounting
  import opened Conservation
  import opened Chains
  import opened ChainState
  import opened Arrival
  import R = Reception

  /** What the locks protect. */
  datatype Shared = Shared(chain: Chain, cache: Cache)

  /** Where a thread that processes blocks stands: what it will do with its next lock. */
  datatype Pc =
    | NextBlock                              // nothing in hand
    | AskKnown(b: Block)                     // is its hash stored?
    | AskParent(b: Block)                    // is its parent stored?
    | AskDifficulty(b: Block, parent: H256)  // does its difficulty equal that of `parent`?
    | ReadState(b: Block)                    // clone the parent's state and check
    | WriteState(b: Block, s: Utxo)          // store the state computed
    | InsertBlock(b: Block)                  // insert into the chain
    | Drain                                  // in the worklist loops, no lock needed
    | Panicked

  /** A network worker: the rest of its message, its orphans, and its worklist with both cursors. */
  datatype Worker = Worker(todo: seq<Block>, orphans: seq<Block>, newBlocks: seq<H256>, n: nat, i: nat, pc: Pc)

  datatype Miner = Mining | Built(b: Block)

  datatype Generator = Idle | HasTip(tip: H256) | HasState(tip: H256, s: Utxo) | Lost

  datatype System = System(
    shared: Shared, workers: seq<Worker>, miner: Miner, finished: seq<Block>, committer: Pc, generator: Generator)

  datatype Event =
    | Deliver(id: nat, blocks: seq<Block>)
    | Network(id: nat)
    | MinerReadsTip(nonce: u32, timestamp: nat, merkleRoot: H256, txs: seq<SignedTransaction>)
    | MinerSends
    | Commit
    | GeneratorReadsTip
    | GeneratorReadsState

  // ---- Steps -------------------------------------------------------------------------------

  /** The three lock scopes from reading the parent's state to inserting; `after` follows a
      refusal or an insertion. */
  ghost function CheckStep(c: Crypto, sh: Shared, pc: Pc, after: Pc): (Shared, Pc) {
    match pc
    case ReadState(b) =>
      if b.head.parent !in sh.cache then (sh, Panicked)
      else if Valid(c, sh.cache[b.head.parent], b.txs)
      then (sh, WriteState(b, Replay(c, sh.cache[b.head.parent], b.txs)))
      else (sh, after)
    case WriteState(b, s) =>
      (sh.(cache := sh.cache[BlockHash(c, b) := s]), InsertBlock(b))
    case InsertBlock(b) =>
      if b.head.parent in sh.chain.blocks && sh.chain.tip in sh.chain.blocks
      then (sh.(chain := Inserted(c, sh.chain, b)), after)
      else (sh, Panicked)
    case _ => (sh, pc)
  }

  /** One step of a network worker in the `Blocks` arm. */
  ghost function WorkerStep(c: Crypto, sh: Shared, w: Worker): (Shared, Worker) {
    match w.pc
    case NextBlock =>
      if w.todo == [] then (sh, w)
      else
        var b := w.todo[0];
        (sh, w.(todo := w.todo[1..], pc := if WorkDone(c, b) then AskKnown(b) else NextBlock))
    case AskKnown(b) =>
      (sh, w.(pc := if BlockHash(c, b) in sh.chain.blocks then NextBlock else AskParent(b)))
    case AskParent(b) =>
      if b.head.parent in sh.chain.blocks then (sh, w.(pc := AskDifficulty(b, b.head.parent)))
      else (sh, w.(orphans := w.orphans + [b], pc := NextBlock))
    case AskDifficulty(b, p) =>
      if p !in sh.chain.blocks then (sh, w.(pc := Panicked))
      else if b.head.difficulty == sh.chain.blocks[p].block.head.difficulty then (sh, w.(pc := ReadState(b)))
      else (sh, w.(pc := Drain))
    case Drain =>
      if w.n >= |w.newBlocks| then (sh, w.(pc := NextBlock))
      else if w.i >= |w.orphans| then (sh, w.(n := w.n + 1, i := 0))
      else if w.orphans[w.i].head.parent == w.newBlocks[w.n] then
        (sh, w.(orphans := w.orphans[..w.i] + w.orphans[w.i + 1..],
                pc := AskDifficulty(w.orphans[w.i], w.newBlocks[w.n])))
      else (sh, w.(i := w.i + 1))
    case Panicked => (sh, w)
    case _ =>
      var (sh', pc') := CheckStep(c, sh, w.pc, Drain);
      (sh', w.(pc := pc', newBlocks :=
        if w.pc.InsertBlock? && pc' == Drain then w.newBlocks + [BlockHash(c, w.pc.b)] else w.newBlocks))
  }

  function BuiltBlock(sh: Shared, ev: Event): Block
    requires ev.MinerReadsTip?
  {
    Block(Header(sh.chain.tip, ev.nonce, GenesisDifficulty(), ev.timestamp, ev.merkleRoot), ev.txs)
  }

  /** One atomic step of the system; an event whose thread is elsewhere changes nothing. */
  ghost function Step(c: Crypto, sys: System, ev: Event): System {
    match ev
    case Deliver(id, blocks) =>
      if id < |sys.workers| && sys.workers[id].pc == NextBlock && sys.workers[id].todo == [] then
        sys.(workers := sys.workers[id := sys.workers[id].(todo := blocks, newBlocks := [], n := 0, i := 0)])
      else sys
    case Network(id) =>
      if id < |sys.workers| then
        var (sh', w') := WorkerStep(c, sys.shared, sys.workers[id]);
        sys.(shared := sh', workers := sys.workers[id := w'])
      else sys
    case MinerReadsTip(_, _, _, _) =>
      if sys.miner == Mining then sys.(miner := Built(BuiltBlock(sys.shared, ev))) else sys
    case MinerSends =>
      if sys.miner.Built? then
        sys.(miner := Mining, finished := if WorkDone(c, sys.miner.b) then sys.finished + [sys.miner.b] else sys.finished)
      else sys
    case Commit =>
      if sys.committer == NextBlock then
        if sys.finished == [] then sys
        else sys.(finished := sys.finished[1..], committer := ReadState(sys.finished[0]))
      else
        var (sh', pc') := CheckStep(c, sys.shared, sys.committer, NextBlock);
        sys.(shared := sh', committer := pc')
    case GeneratorReadsTip => sys.(generator := HasTip(sys.shared.chain.tip))
    case GeneratorReadsState =>
      if sys.generator.HasTip? then
        var tip := sys.generator.tip;
        sys.(generator := if tip in sys.shared.cache then HasState(tip, sys.shared.cache[tip]) else Lost)
      else sys
  }

  ghost function Start(c: Crypto, owner: Address, workers: nat): System {
    System(Shared(NewChain(c), map[GenesisHash(c) := Initial(owner)]),
           seq(workers, _ => Worker([], [], [], 0, 0, NextBlock)), Mining, [], NextBlock, Idle)
  }

  /** The system after the first k events. */
  ghost function After(c: Crypto, start: System, events: seq<Event>, k: nat): System
    requires k <= |events|
  {
    if k == 0 then start else Step(c, After(c, start, events, k - 1), events[k - 1])
  }

  /** The blocks an event brings into play are among `u`. */
  ghost predicate InPlay(u: set<Block>, sys: System, ev: Event) {
    match ev
    case Deliver(_, blocks) => forall k :: 0 <= k < |blocks| ==> blocks[k] in u
    case MinerReadsTip(_, _, _, _) => BuiltBlock(sys.shared, ev) in u
    case _ => true
  }

  ghost predicate InPlayAt(c: Crypto, u: set<Block>, start: System, events: seq<Event>, k: nat)
    requires k < |events|
  {
    InPlay(u, After(c, start, events, k), events[k])
  }

  /** `u` holds every block delivered or mined in the run. */
  ghost predicate Universe(c: Crypto, u: set<Block>, start: System, events: seq<Event>) {
    && HeadersDistinct(c, u)
    && forall k {:trigger InPlayAt(c, u, start, events, k)} :: 0 <= k < |events| ==> InPlayAt(c, u, start, events, k)
  }

  // ---- Safety ------------------------------------------------------------------------------

  ghost predicate SharedSafe(c: Crypto, u: set<Block>, sh: Shared) {
    && Tree(c, u, sh.chain)
    && Worked(c, sh.chain)
    && sh.chain.blocks.Keys <= sh.cache.Keys
  }

  ghost predicate Sound(c: Crypto, u: set<Block>, b: Block) {
    b in u && WorkDone(c, b)
  }

  /** A block past its difficulty check. */
  ghost predicate Checked(c: Crypto, u: set<Block>, sh: Shared, b: Block) {
    && Sound(c, u, b)
    && b.head.parent in sh.chain.blocks
    && b.head.difficulty == GenesisDifficulty()
  }

  ghost predicate PcSafe(c: Crypto, u: set<Block>, sh: Shared, pc: Pc) {
    match pc
    case NextBlock => true
    case Drain => true
    case AskKnown(b) => Sound(c, u, b)
    case AskParent(b) => Sound(c, u, b)
    case AskDifficulty(b, p) => Sound(c, u, b) && p == b.head.parent && p in sh.chain.blocks
    case ReadState(b) => Checked(c, u, sh, b)
    case WriteState(b, _) => Checked(c, u, sh, b)
    case InsertBlock(b) => Checked(c, u, sh, b) && BlockHash(c, b) in sh.cache
    case Panicked => false
  }

  ghost predicate WorkerSafe(c: Crypto, u: set<Block>, sh: Shared, w: Worker) {
    && (forall b {:trigger b in w.todo} :: b in w.todo ==> b in u)
    && (forall b {:trigger Sound(c, u, b)} :: b in w.orphans ==> Sound(c, u, b))
    && (forall h {:trigger h in w.newBlocks} :: h in w.newBlocks ==> h in sh.chain.blocks)
    && PcSafe(c, u, sh, w.pc)
  }

  ghost predicate MinerSafe(u: set<Block>, sh: Shared, m: Miner) {
    m.Built? ==> m.b in u && m.b.head.parent in sh.chain.blocks && m.b.head.difficulty == GenesisDifficulty()
  }

  ghost predicate GeneratorSafe(sh: Shared, g: Generator) {
    (g.HasTip? ==> g.tip in sh.chain.blocks) && !g.Lost?
  }

  ghost predicate Safe(c: Crypto, u: set<Block>, sys: System) {
    && SharedSafe(c, u, sys.shared)
    && (forall k {:trigger WorkerSafe(c, u, sys.shared, sys.workers[k])} ::
          0 <= k < |sys.workers| ==> WorkerSafe(c, u, sys.shared, sys.workers[k]))
    && MinerSafe(u, sys.shared, sys.miner)
    && (forall b {:trigger Checked(c, u, sys.shared, b)} :: b in sys.finished ==> Checked(c, u, sys.shared, b))
    && PcSafe(c, u, sys.shared, sys.committer)
    && GeneratorSafe(sys.shared, sys.generator)
  }

  /** Nothing stored is lost, and heights stay. */
  ghost predicate Grown(sh: Shared, sh': Shared) {
    SameHeights(sh.chain, sh'.chain) && sh.cache.Keys <= sh'.cache.Keys
  }

  lemma {:induction false} CheckStepIsSafe(c: Crypto, u: set<Block>, sh: Shared, pc: Pc, after: Pc)
    requires HeadersDistinct(c, u) && SharedSafe(c, u, sh) && PcSafe(c, u, sh, pc)
    requires pc.ReadState? || pc.WriteState? || pc.InsertBlock?
    requires after == NextBlock || after == Drain
    ensures var (sh', pc') := CheckStep(c, sh, pc, after);
      SharedSafe(c, u, sh') && Grown(sh, sh') && PcSafe(c, u, sh', pc')
      && (pc.InsertBlock? ==> pc' == after && BlockHash(c, pc.b) in sh'.chain.blocks)
  {
    hide GenesisDifficulty, Le;
    if pc.InsertBlock? {
      assert WorkedAt(c, sh.chain, pc.b.head.parent);
      InsertKeepsTree(c, u, sh.chain, pc.b);
      InsertKeepsWork(c, u, sh.chain, pc.b);
    }
  }

  /** What another thread stores does not disturb this one. */
  lemma {:induction false} OthersUndisturbed(c: Crypto, u: set<Block>, sh: Shared, sh': Shared)
    requires Grown(sh, sh')
    ensures forall pc :: PcSafe(c, u, sh, pc) ==> PcSafe(c, u, sh', pc)
    ensures forall w :: WorkerSafe(c, u, sh, w) ==> WorkerSafe(c, u, sh', w)
    ensures forall m :: MinerSafe(u, sh, m) ==> MinerSafe(u, sh', m)
    ensures forall b :: Checked(c, u, sh, b) ==> Checked(c, u, sh', b)
    ensures forall g :: GeneratorSafe(sh, g) ==> GeneratorSafe(sh', g)
  {
    hide GenesisDifficulty, WorkDone;
  }

  lemma {:induction false} WorkerStepIsSafe(c: Crypto, u: set<Block>, sh: Shared, w: Worker)
    requires HeadersDistinct(c, u) && SharedSafe(c, u, sh) && WorkerSafe(c, u, sh, w)
    ensures var (sh', w') := WorkerStep(c, sh, w);
      SharedSafe(c, u, sh') && Grown(sh, sh') && WorkerSafe(c, u, sh', w')
  {
    hide GenesisDifficulty, Tree, HeadersDistinct, WorkDone;
    match w.pc
    case NextBlock =>
      assert w.todo != [] ==> w.todo[0] in w.todo;
      assert forall b :: w.todo != [] && b in w.todo[1..] ==> b in w.todo;
    case AskDifficulty(b, p) =>
      assert WorkedAt(c, sh.chain, p);
    case Drain =>
      if w.n < |w.newBlocks| && w.i < |w.orphans| {
        assert w.orphans[w.i] in w.orphans && w.newBlocks[w.n] in w.newBlocks;
        assert Sound(c, u, w.orphans[w.i]);
      }
    case ReadState(b) => CheckStepIsSafe(c, u, sh, w.pc, Drain);
    case WriteState(b, s) => CheckStepIsSafe(c, u, sh, w.pc, Drain);
    case InsertBlock(b) => CheckStepIsSafe(c, u, sh, w.pc, Drain);
    case _ =>
  }

  lemma {:induction false} StepIsSafe(c: Crypto, u: set<Block>, sys: System, ev: Event)
    requires HeadersDistinct(c, u) && Safe(c, u, sys) && InPlay(u, sys, ev)
    ensures Safe(c, u, Step(c, sys, ev)) && Grown(sys.shared, Step(c, sys, ev).shared)
  {
    hide GenesisDifficulty, Tree, Worked, HeadersDistinct, WorkDone, WorkerStep, CheckStep, PcSafe;
    var sys' := Step(c, sys, ev);
    match ev
    case Network(id) =>
      if id < |sys.workers| {
        NetworkStepIsSafe(c, u, sys, id);
      }
    case Commit => CommitIsSafe(c, u, sys);
    case Deliver(id, blocks) =>
      if id < |sys.workers| {
        assert WorkerSafe(c, u, sys.shared, sys.workers[id]);
        assert WorkerSafe(c, u, sys.shared, sys'.workers[id]);
      }
    case MinerReadsTip(_, _, _, _) =>
      assert sys.shared.chain.tip in sys.shared.chain.blocks by {
        TipStored(c, u, sys.shared.chain);
      }
    case MinerSends =>
      if sys.miner.Built? && WorkDone(c, sys.miner.b) {
        assert Checked(c, u, sys.shared, sys.miner.b);
      }
    case GeneratorReadsTip => TipStored(c, u, sys.shared.chain);
    case GeneratorReadsState =>
  }

  lemma {:induction false} TipStored(c: Crypto, u: set<Block>, ch: Chain)
    requires Tree(c, u, ch)
    ensures ch.tip in ch.blocks
  {
  }

  lemma {:induction false} NetworkStepIsSafe(c: Crypto, u: set<Block>, sys: System, id: nat)
    requires HeadersDistinct(c, u) && Safe(c, u, sys) && id < |sys.workers|
    ensures Safe(c, u, Step(c, sys, Network(id))) && Grown(sys.shared, Step(c, sys, Network(id)).shared)
  {
    hide SharedSafe, HeadersDistinct, WorkDone, WorkerStep, PcSafe, Grown, WorkerSafe, MinerSafe, GeneratorSafe, Checked;
    assert WorkerSafe(c, u, sys.shared, sys.workers[id]);
    WorkerStepIsSafe(c, u, sys.shared, sys.workers[id]);
    var (sh', w') := WorkerStep(c, sys.shared, sys.workers[id]);
    OthersUndisturbed(c, u, sys.shared, sh');
  }

  lemma {:induction false} CommitIsSafe(c: Crypto, u: set<Block>, sys: System)
    requires HeadersDistinct(c, u) && Safe(c, u, sys)
    ensures Safe(c, u, Step(c, sys, Commit)) && Grown(sys.shared, Step(c, sys, Commit).shared)
  {
    hide SharedSafe, HeadersDistinct, WorkDone, WorkerSafe, MinerSafe, GeneratorSafe, Checked;
    if sys.committer == NextBlock {
      if sys.finished != [] {
        assert Checked(c, u, sys.shared, sys.finished[0]);
        assert forall b :: b in sys.finished[1..] ==> b in sys.finished;
      }
    } else if sys.committer.ReadState? || sys.committer.WriteState? || sys.committer.InsertBlock? {
      CheckStepIsSafe(c, u, sys.shared, sys.committer, NextBlock);
      OthersUndisturbed(c, u, sys.shared, CheckStep(c, sys.shared, sys.committer, NextBlock).0);
    }
  }

  lemma {:induction false} StartIsSafe(c: Crypto, owner: Address, u: set<Block>, workers: nat)
    requires Genesis() in u
    ensures Safe(c, u, Start(c, owner, workers))
  {
    NewChainIsTree(c, u);
  }

  /** In every reachable state, whatever the schedule: the chain is a tree, all work is done at the
      genesis difficulty, every stored block has a cached state, and every thread is where its
      next lookups succeed. */
  lemma {:induction false} AlwaysSafe(c: Crypto, owner: Address, u: set<Block>, workers: nat,
        events: seq<Event>, k: nat)
    requires Universe(c, u, Start(c, owner, workers), events) && k <= |events|
    ensures Safe(c, u, After(c, Start(c, owner, workers), events, k))
  {
    var start := Start(c, owner, workers);
    if k == 0 {
      StartIsSafe(c, owner, u, workers);
    } else {
      AlwaysSafe(c, owner, u, workers, events, k - 1);
      assert InPlayAt(c, u, start, events, k - 1);
      StepIsSafe(c, u, After(c, start, events, k - 1), events[k - 1]);
    }
  }

  /** No `unwrap` ever fails: not in validation, insertion, or reads of the tip's state. */
  lemma {:induction false} NothingPanics(c: Crypto, owner: Address, u: set<Block>, workers: nat,
        events: seq<Event>, k: nat)
    requires Universe(c, u, Start(c, owner, workers), events) && k <= |events|
    ensures var sys := After(c, Start(c, owner, workers), events, k);
      && (forall j :: 0 <= j < |sys.workers| ==> sys.workers[j].pc != Panicked)
      && sys.committer != Panicked && sys.generator != Lost
      && sys.shared.chain.tip in sys.shared.chain.blocks
      && sys.shared.chain.blocks.Keys <= sys.shared.cache.Keys
  {
    AlwaysSafe(c, owner, u, workers, events, k);
    var sys := After(c, Start(c, owner, workers), events, k);
    assert forall j :: 0 <= j < |sys.workers| ==> WorkerSafe(c, u, sys.shared, sys.workers[j]);
  }

  /** Keys never disappear and heights never change. */
  lemma {:induction false} NothingIsLost(c: Crypto, owner: Address, u: set<Block>, workers: nat,
        events: seq<Event>, i: nat, k: nat)
    requires Universe(c, u, Start(c, owner, workers), events) && i <= k <= |events|
    ensures var start := Start(c, owner, workers);
      Grown(After(c, start, events, i).shared, After(c, start, events, k).shared)
    decreases k
  {
    hide Safe, Universe, Start;
    var start := Start(c, owner, workers);
    if i < k {
      NothingIsLost(c, owner, u, workers, events, i, k - 1);
      AlwaysSafe(c, owner, u, workers, events, k - 1);
      UniverseAt(c, u, start, events, k - 1);
      StepIsSafe(c, u, After(c, start, events, k - 1), events[k - 1]);
    }
  }

  lemma {:induction false} UniverseAt(c: Crypto, u: set<Block>, start: System, events: seq<Event>, k: nat)
    requires Universe(c, u, start, events) && k < |events|
    ensures HeadersDistinct(c, u) && InPlay(u, After(c, start, events, k), events[k])
  {
    assert InPlayAt(c, u, start, events, k);
  }

  /** A step moves the tip only to a greater height. */
  lemma {:induction false} TipMovesUp(c: Crypto, u: set<Block>, sys: System, ev: Event)
    requires HeadersDistinct(c, u) && Safe(c, u, sys) && InPlay(u, sys, ev)
    ensures var ch, ch' := sys.shared.chain, Step(c, sys, ev).shared.chain;
      && ch.tip in ch.blocks && ch'.tip in ch'.blocks
      && (ch'.tip == ch.tip || ch'.blocks[ch'.tip].height > ch.blocks[ch.tip].height)
  {
    hide HeadersDistinct, WorkDone, PcSafe, MinerSafe, GeneratorSafe, WorkerSafe, Genesis, Valid, Replay;
    TipStored(c, u, sys.shared.chain);
    StepIsSafe(c, u, sys, ev);
    TipStored(c, u, Step(c, sys, ev).shared.chain);
  }

  /** Under any schedule the tip is the first block to have reached the greatest height: it became the
      tip at some event m, and everything stored before m is strictly lower. */
  lemma {:induction false} TipIsAlwaysFirstHighest(c: Crypto, owner: Address, u: set<Block>, workers: nat,
        events: seq<Event>, k: nat)
    returns (m: nat)
    requires Universe(c, u, Start(c, owner, workers), events) && k <= |events|
    ensures m <= k
    ensures var start := Start(c, owner, workers);
      var ch, at := After(c, start, events, k).shared.chain, After(c, start, events, m).shared.chain;
      && ch.tip in ch.blocks && at.tip == ch.tip
      && (forall h :: h in ch.blocks ==> ch.blocks[h].height <= ch.blocks[ch.tip].height)
      && (m > 0 ==> AllBelow(After(c, start, events, m - 1).shared.chain, ch.blocks[ch.tip].height))
  {
    hide Universe, Start, Step, Safe, Tree, InPlay;
    var start := Start(c, owner, workers);
    var sys := After(c, start, events, k);
    AlwaysSafe(c, owner, u, workers, events, k);
    SafeTip(c, u, sys);
    if k == 0 {
      m := 0;
    } else {
      var before := After(c, start, events, k - 1);
      AlwaysSafe(c, owner, u, workers, events, k - 1);
      SafeTip(c, u, before);
      UniverseAt(c, u, start, events, k - 1);
      TipMovesUp(c, u, before, events[k - 1]);
      StepIsSafe(c, u, before, events[k - 1]);
      if sys.shared.chain.tip == before.shared.chain.tip {
        m := TipIsAlwaysFirstHighest(c, owner, u, workers, events, k - 1);
      } else {
        m := k;
      }
    }
  }

  lemma {:induction false} SafeTip(c: Crypto, u: set<Block>, sys: System)
    requires Safe(c, u, sys)
    ensures var ch := sys.shared.chain;
      ch.tip in ch.blocks && forall h :: h in ch.blocks ==> ch.blocks[h].height <= ch.blocks[ch.tip].height
  {
    var ch := sys.shared.chain;
    forall h | h in ch.blocks
      ensures ch.blocks[h].height <= ch.blocks[ch.tip].height
    {
      TipIsHighest(c, u, ch, h);
    }
  }

  // ---- Supply cap --------------------------------------------------------------------------

  /** Its transactions are sound, which regular ones are. */
  ghost predicate SoundBlock(b: Block) {
    AllSound(b.txs)
  }

  ghost predicate AllSoundBlocks(u: set<Block>) {
    forall b {:trigger SoundBlock(b)} :: b in u ==> SoundBlock(b)
  }

  ghost predicate CappedState(s: Utxo) {
    Total(s) <= 100
  }

  ghost predicate CappedPc(pc: Pc) {
    pc.WriteState? ==> CappedState(pc.s)
  }

  /** Every stored state, and every state a thread is about to store, holds at most 100. */
  ghost predicate Capped(sys: System) {
    && (forall h {:trigger CappedState(sys.shared.cache[h])} :: h in sys.shared.cache ==> CappedState(sys.shared.cache[h]))
    && (forall k {:trigger CappedPc(sys.workers[k].pc)} :: 0 <= k < |sys.workers| ==> CappedPc(sys.workers[k].pc))
    && CappedPc(sys.committer)
  }

  /** Validation started on a capped state: as long as the first k transactions pass, the state they
      leave is capped, and every partial sum over distinct inputs of the next one is at most 100, whether
      that one then passes or fails. */
  lemma {:induction false} CheckingStaysCapped(c: Crypto, s: Utxo, txs: seq<SignedTransaction>, k: nat)
    requires k <= |txs| && CappedState(s) && PassesFirst(c, s, txs, k) && AllSound(txs)
    ensures CappedState(ReplayTo(c, s, txs, k))
    ensures k < |txs| && Distinct(txs[k].transaction.input) ==> forall n :: 0 <= n <= |txs[k].transaction.input| ==>
      SumInputs(ReplayTo(c, s, txs, k), txs[k].transaction.input, n) <= 100
  {
    ReplayConserves(c, s, txs, k);
    if k < |txs| && Distinct(txs[k].transaction.input) {
      forall n | 0 <= n <= |txs[k].transaction.input|
        ensures SumInputs(ReplayTo(c, s, txs, k), txs[k].transaction.input, n) <= 100
      {
        InputSumNeverWraps(ReplayTo(c, s, txs, k), txs[k].transaction.input, n);
      }
    }
  }

  lemma {:induction false} CheckStepStaysCapped(c: Crypto, u: set<Block>, sh: Shared, pc: Pc, after: Pc)
    requires AllSoundBlocks(u) && (pc.ReadState? ==> pc.b in u) && !after.WriteState?
    requires (forall h {:trigger CappedState(sh.cache[h])} :: h in sh.cache ==> CappedState(sh.cache[h])) && CappedPc(pc)
    ensures var (sh', pc') := CheckStep(c, sh, pc, after);
      CappedPc(pc') && forall h {:trigger CappedState(sh'.cache[h])} :: h in sh'.cache ==> CappedState(sh'.cache[h])
  {
    hide CappedState;
    match pc
    case ReadState(b) =>
      if b.head.parent in sh.cache && Valid(c, sh.cache[b.head.parent], b.txs) {
        assert CappedState(sh.cache[b.head.parent]) && SoundBlock(b);
        CheckingStaysCapped(c, sh.cache[b.head.parent], b.txs, |b.txs|);
      }
    case WriteState(b, s) =>
      var sh' := CheckStep(c, sh, pc, after).0;
      forall h | h in sh'.cache
        ensures CappedState(sh'.cache[h])
      {
        assert h != BlockHash(c, b) ==> CappedState(sh.cache[h]);
      }
    case _ =>
  }

  lemma {:induction false} StepStaysCapped(c: Crypto, u: set<Block>, sys: System, ev: Event)
    requires AllSoundBlocks(u) && Safe(c, u, sys) && Capped(sys)
    ensures Capped(Step(c, sys, ev))
  {
    hide CappedState, SharedSafe, WorkDone, AllSoundBlocks;
    match ev
    case Network(id) =>
      if id < |sys.workers| {
        var w := sys.workers[id];
        assert WorkerSafe(c, u, sys.shared, w) && CappedPc(w.pc);
        CheckStepStaysCapped(c, u, sys.shared, w.pc, Drain);
        var sys' := Step(c, sys, ev);
        forall k | 0 <= k < |sys'.workers|
          ensures CappedPc(sys'.workers[k].pc)
        {
          assert CappedPc(sys.workers[k].pc);
        }
      }
    case Commit =>
      CheckStepStaysCapped(c, u, sys.shared, sys.committer, NextBlock);
    case Deliver(id, blocks) =>
      var sys' := Step(c, sys, ev);
      forall k | 0 <= k < |sys'.workers|
        ensures CappedPc(sys'.workers[k].pc)
      {
        assert CappedPc(sys.workers[k].pc);
      }
    case _ =>
  }

  /** The supply never exceeds the initial 100 coins, in any interleaving. */
  lemma {:induction false} SupplyIsCapped(c: Crypto, owner: Address, u: set<Block>, workers: nat,
        events: seq<Event>, k: nat)
    requires Universe(c, u, Start(c, owner, workers), events) && AllSoundBlocks(u) && k <= |events|
    ensures Capped(After(c, Start(c, owner, workers), events, k))
  {
    var start := Start(c, owner, workers);
    if k == 0 {
      InitialTotal(owner);
    } else {
      SupplyIsCapped(c, owner, u, workers, events, k - 1);
      AlwaysSafe(c, owner, u, workers, events, k - 1);
      StepStaysCapped(c, u, After(c, start, events, k - 1), events[k - 1]);
    }
  }

  /** No 32-bit input sum ever wraps while the node checks a block, accepted or not: in every reachable
      state, for every block in play whose parent has a cached state, every state that checking it
      passes through holds at most 100, and so does every partial sum over distinct inputs on the way. */
  lemma {:induction false} CheckingNeverOverflows(c: Crypto, owner: Address, u: set<Block>, workers: nat,
        events: seq<Event>, k: nat, b: Block, j: nat, n: nat)
    requires Universe(c, u, Start(c, owner, workers), events) && AllSoundBlocks(u) && k <= |events|
    requires var cache := After(c, Start(c, owner, workers), events, k).shared.cache;
      b in u && b.head.parent in cache && j < |b.txs| && PassesFirst(c, cache[b.head.parent], b.txs, j)
    requires n <= |b.txs[j].transaction.input|
    ensures var s := After(c, Start(c, owner, workers), events, k).shared.cache[b.head.parent];
      && Total(ReplayTo(c, s, b.txs, j)) <= 100
      && (Distinct(b.txs[j].transaction.input) ==>
            SumInputs(ReplayTo(c, s, b.txs, j), b.txs[j].transaction.input, n) <= 100)
  {
    SupplyIsCapped(c, owner, u, workers, events, k);
    var cache := After(c, Start(c, owner, workers), events, k).shared.cache;
    assert CappedState(cache[b.head.parent]) && SoundBlock(b);
    CheckingStaysCapped(c, cache[b.head.parent], b.txs, j);
  }

  // ---- Cache equals replay under any schedule ----------------------------------------------

  /** `path` is acceptable over `u`, ends at `h`, and leaves the state `s`. */
  ghost predicate ReachedBy(c: Crypto, owner: Address, u: set<Block>, path: seq<Block>, h: H256, s: Utxo) {
    AcceptedPath(c, owner, u, path) && EndsAt(c, path, h) && PathState(c, owner, path, |path| - 1) == s
  }

  ghost predicate Reached(c: Crypto, owner: Address, u: set<Block>, h: H256, s: Utxo) {
    exists path :: ReachedBy(c, owner, u, path, h, s)
  }

  ghost predicate OneState(c: Crypto, owner: Address, p: seq<Block>, q: seq<Block>)
    requires p != [] && q != []
  {
    PathState(c, owner, p, |p| - 1) == PathState(c, owner, q, |q| - 1)
  }

  /** Acceptable paths over `u` that end in one hash lead to one state. */
  ghost predicate Confluent(c: Crypto, owner: Address, u: set<Block>) {
    forall p, q, h {:trigger EndsAt(c, p, h), EndsAt(c, q, h)} ::
      AcceptedPath(c, owner, u, p) && AcceptedPath(c, owner, u, q) && EndsAt(c, p, h) && EndsAt(c, q, h) ==>
      OneState(c, owner, p, q)
  }

  lemma {:induction false} ReachedOnce(c: Crypto, owner: Address, u: set<Block>, h: H256, s: Utxo, t: Utxo)
    requires Confluent(c, owner, u) && Reached(c, owner, u, h, s) && Reached(c, owner, u, h, t)
    ensures s == t
  {
    hide AcceptedPath, PathState;
    var p :| ReachedBy(c, owner, u, p, h, s);
    var q :| ReachedBy(c, owner, u, q, h, t);
    assert EndsAt(c, p, h) && EndsAt(c, q, h);
    assert OneState(c, owner, p, q);
  }

  /** All blocks of an acceptable path carry the genesis difficulty. */
  lemma {:induction false} PathDifficulty(c: Crypto, owner: Address, u: set<Block>, path: seq<Block>, i: nat)
    requires AcceptedPath(c, owner, u, path) && i < |path|
    ensures path[i].head.difficulty == GenesisDifficulty()
  {
    hide GenesisDifficulty, Le, WorkDone, Valid;
    if i > 0 {
      PathDifficulty(c, owner, u, path, i - 1);
      assert AcceptedStep(c, owner, u, path, i);
    }
  }

  /** A checked block that is valid on a reached state of its parent reaches its replay. */
  lemma {:induction false} ReachFurther(c: Crypto, owner: Address, u: set<Block>, b: Block, s: Utxo)
    requires Sound(c, u, b) && b.head.difficulty == GenesisDifficulty()
    requires Reached(c, owner, u, b.head.parent, s) && Valid(c, s, b.txs)
    ensures Reached(c, owner, u, BlockHash(c, b), Replay(c, s, b.txs))
  {
    hide GenesisDifficulty, Le, WorkDone, Valid, Replay;
    var p :| ReachedBy(c, owner, u, p, b.head.parent, s);
    var path := p + [b];
    PathDifficulty(c, owner, u, p, |p| - 1);
    PathStatePrefix(c, owner, p, b, |p| - 1);
    assert AcceptedStep(c, owner, u, path, |p|);
    ExtendPath(c, owner, u, p, b);
    assert ReachedBy(c, owner, u, path, BlockHash(c, b), Replay(c, s, b.txs));
  }

  /** A thread about to store a state computed it from the parent's state that is cached now, and a
      thread about to insert a block has its state in the cache. */
  ghost predicate FaithfulPc(c: Crypto, cache: Cache, pc: Pc) {
    match pc
    case WriteState(b, s) =>
      b.head.parent in cache && Valid(c, cache[b.head.parent], b.txs) && s == Replay(c, cache[b.head.parent], b.txs)
    case InsertBlock(b) => Justified(c, cache, b, BlockHash(c, b))
    case _ => true
  }

  /** Every cached state is reached by an acceptable path, and the cache replays the stored bodies. */
  ghost predicate FaithfulShared(c: Crypto, owner: Address, u: set<Block>, sh: Shared) {
    && (forall h {:trigger Reached(c, owner, u, h, sh.cache[h])} ::
          h in sh.cache ==> Reached(c, owner, u, h, sh.cache[h]))
    && Replayed(c, owner, sh.chain, sh.cache)
  }

  ghost predicate Faithful(c: Crypto, owner: Address, u: set<Block>, sys: System) {
    && FaithfulShared(c, owner, u, sys.shared)
    && (forall k {:trigger FaithfulPc(c, sys.shared.cache, sys.workers[k].pc)} ::
          0 <= k < |sys.workers| ==> FaithfulPc(c, sys.shared.cache, sys.workers[k].pc))
    && FaithfulPc(c, sys.shared.cache, sys.committer)
  }

  lemma {:induction false} FaithfulPcStays(c: Crypto, cache: Cache, cache': Cache, pc: Pc)
    requires CacheExtends(cache, cache') && FaithfulPc(c, cache, pc)
    ensures FaithfulPc(c, cache', pc)
  {
    hide Valid, Replay;
  }

  lemma {:induction false} ReplayedStays(c: Crypto, owner: Address, ch: Chain, cache: Cache, cache': Cache)
    requires CacheExtends(cache, cache') && Replayed(c, owner, ch, cache)
    ensures Replayed(c, owner, ch, cache')
  {
    hide Valid, Replay;
    forall h | h in ch.blocks
      ensures ReplayedAt(c, ch, cache', h)
    {
      assert ReplayedAt(c, ch, cache, h);
    }
  }

  /** Storing a faithful state either repeats what is cached or adds a new key. */
  lemma {:induction false} FaithfulWrite(c: Crypto, owner: Address, u: set<Block>, sh: Shared, b: Block, s: Utxo)
    requires Confluent(c, owner, u) && SharedSafe(c, u, sh) && FaithfulShared(c, owner, u, sh)
    requires Checked(c, u, sh, b) && FaithfulPc(c, sh.cache, WriteState(b, s))
    ensures var cache' := sh.cache[BlockHash(c, b) := s];
      && FaithfulShared(c, owner, u, sh.(cache := cache')) && CacheExtends(sh.cache, cache')
      && FaithfulPc(c, cache', InsertBlock(b))
  {
    hide GenesisDifficulty, Le, WorkDone, Valid, Replay, Confluent, Reached, Tree, Worked, Replayed;
    var h, cache := BlockHash(c, b), sh.cache;
    var cache' := cache[h := s];
    assert Reached(c, owner, u, b.head.parent, cache[b.head.parent]);
    ReachFurther(c, owner, u, b, cache[b.head.parent]);
    if h in cache {
      assert Reached(c, owner, u, h, cache[h]);
      ReachedOnce(c, owner, u, h, s, cache[h]);
      assert cache' == cache;
    } else {
      ReplayedStays(c, owner, sh.chain, cache, cache');
      forall g | g in cache'
        ensures Reached(c, owner, u, g, cache'[g])
      {
        assert g != h ==> Reached(c, owner, u, g, cache[g]);
      }
    }
  }

  /** Inserting a block whose state is cached keeps the replay, over an old body too. */
  lemma {:induction false} ReplayedInsert(c: Crypto, owner: Address, u: set<Block>, sh: Shared, b: Block)
    requires HeadersDistinct(c, u) && SharedSafe(c, u, sh) && Replayed(c, owner, sh.chain, sh.cache)
    requires Checked(c, u, sh, b) && FaithfulPc(c, sh.cache, InsertBlock(b))
    ensures Replayed(c, owner, Inserted(c, sh.chain, b), sh.cache)
  {
    hide GenesisDifficulty, Le, WorkDone, Justified, Worked;
    HeaderUnderHash(c, u, sh.chain, b);
    var ch' := Inserted(c, sh.chain, b);
    forall h | h in ch'.blocks
      ensures ReplayedAt(c, ch', sh.cache, h)
    {
      assert h != BlockHash(c, b) ==> ReplayedAt(c, sh.chain, sh.cache, h);
    }
  }

  lemma {:induction false} FaithfulInsert(c: Crypto, owner: Address, u: set<Block>, sh: Shared, b: Block)
    requires HeadersDistinct(c, u) && SharedSafe(c, u, sh) && FaithfulShared(c, owner, u, sh)
    requires Checked(c, u, sh, b) && FaithfulPc(c, sh.cache, InsertBlock(b))
    ensures FaithfulShared(c, owner, u, sh.(chain := Inserted(c, sh.chain, b)))
  {
    hide GenesisDifficulty, Le, WorkDone, Reached, Worked, Replayed;
    ReplayedInsert(c, owner, u, sh, b);
  }

  lemma {:induction false} CheckStepStaysFaithful(c: Crypto, owner: Address, u: set<Block>, sh: Shared, pc: Pc,
        after: Pc)
    requires HeadersDistinct(c, u) && Confluent(c, owner, u) && SharedSafe(c, u, sh) && PcSafe(c, u, sh, pc)
    requires FaithfulShared(c, owner, u, sh) && FaithfulPc(c, sh.cache, pc)
    requires after == NextBlock || after == Drain
    ensures var (sh', pc') := CheckStep(c, sh, pc, after);
      && FaithfulShared(c, owner, u, sh') && FaithfulPc(c, sh'.cache, pc')
      && CacheExtends(sh.cache, sh'.cache)
  {
    hide GenesisDifficulty, Le, WorkDone, Confluent, FaithfulShared, Replay, Worked, HeadersDistinct;
    match pc
    case WriteState(b, s) => FaithfulWrite(c, owner, u, sh, b, s);
    case InsertBlock(b) => FaithfulInsert(c, owner, u, sh, b);
    case _ =>
  }

  /** Two systems whose workers differ at most at `id` and whose caches extend one another. */
  lemma {:induction false} WorkersStayFaithful(c: Crypto, sys: System, sys': System, id: int)
    requires |sys'.workers| == |sys.workers| && CacheExtends(sys.shared.cache, sys'.shared.cache)
    requires forall k :: 0 <= k < |sys.workers| && k != id ==> sys'.workers[k].pc == sys.workers[k].pc
    requires 0 <= id < |sys.workers| ==> FaithfulPc(c, sys'.shared.cache, sys'.workers[id].pc)
    requires forall k {:trigger FaithfulPc(c, sys.shared.cache, sys.workers[k].pc)} ::
      0 <= k < |sys.workers| ==> FaithfulPc(c, sys.shared.cache, sys.workers[k].pc)
    ensures forall k {:trigger FaithfulPc(c, sys'.shared.cache, sys'.workers[k].pc)} ::
      0 <= k < |sys'.workers| ==> FaithfulPc(c, sys'.shared.cache, sys'.workers[k].pc)
  {
    hide FaithfulPc, CacheExtends;
    forall k | 0 <= k < |sys'.workers|
      ensures FaithfulPc(c, sys'.shared.cache, sys'.workers[k].pc)
    {
      if k != id {
        assert FaithfulPc(c, sys.shared.cache, sys.workers[k].pc);
        FaithfulPcStays(c, sys.shared.cache, sys'.shared.cache, sys.workers[k].pc);
      }
    }
  }

  lemma {:induction false} StepStaysFaithful(c: Crypto, owner: Address, u: set<Block>, sys: System, ev: Event)
    requires HeadersDistinct(c, u) && Confluent(c, owner, u) && Safe(c, u, sys) && Faithful(c, owner, u, sys)
    ensures var sys' := Step(c, sys, ev);
      Faithful(c, owner, u, sys') && CacheExtends(sys.shared.cache, sys'.shared.cache)
  {
    hide SharedSafe, HeadersDistinct, Confluent, FaithfulShared, WorkDone, Valid, Justified;
    var sys' := Step(c, sys, ev);
    match ev
    case Network(id) =>
      if id < |sys.workers| {
        var w := sys.workers[id];
        assert WorkerSafe(c, u, sys.shared, w) && FaithfulPc(c, sys.shared.cache, w.pc);
        CheckStepStaysFaithful(c, owner, u, sys.shared, w.pc, Drain);
        WorkersStayFaithful(c, sys, sys', id);
        FaithfulPcStays(c, sys.shared.cache, sys'.shared.cache, sys.committer);
      }
    case Commit =>
      CheckStepStaysFaithful(c, owner, u, sys.shared, sys.committer, NextBlock);
      WorkersStayFaithful(c, sys, sys', -1);
    case Deliver(id, blocks) =>
      WorkersStayFaithful(c, sys, sys', -1);
    case _ =>
  }

  lemma {:induction false} StartIsFaithful(c: Crypto, owner: Address, u: set<Block>, workers: nat)
    ensures Faithful(c, owner, u, Start(c, owner, workers))
  {
    hide GenesisDifficulty;
    assert ReachedBy(c, owner, u, [Genesis()], GenesisHash(c), Initial(owner));
  }

  lemma {:induction false} AlwaysFaithful(c: Crypto, owner: Address, u: set<Block>, workers: nat,
        events: seq<Event>, k: nat)
    requires Universe(c, u, Start(c, owner, workers), events) && Confluent(c, owner, u) && k <= |events|
    ensures Faithful(c, owner, u, After(c, Start(c, owner, workers), events, k))
  {
    hide Start, Step, Safe, Faithful, Confluent, Universe;
    var start := Start(c, owner, workers);
    if k == 0 {
      StartIsFaithful(c, owner, u, workers);
    } else {
      AlwaysFaithful(c, owner, u, workers, events, k - 1);
      AlwaysSafe(c, owner, u, workers, events, k - 1);
      UniverseAt(c, u, start, events, k - 1);
      StepStaysFaithful(c, owner, u, After(c, start, events, k - 1), events[k - 1]);
    }
  }

  /** In every reachable state the cache replays the stored bodies, so everything `ChainState`
      proves about chains and their states holds of the concurrent node too. The premise is
      necessary as well as sufficient, see `Confluence.ReplaysIffConfluent`. */
  lemma {:induction false} CacheAlwaysReplays(c: Crypto, owner: Address, u: set<Block>, workers: nat,
        events: seq<Event>, k: nat)
    requires Universe(c, u, Start(c, owner, workers), events) && Confluent(c, owner, u) && k <= |events|
    ensures var sh := After(c, Start(c, owner, workers), events, k).shared;
      Tree(c, u, sh.chain) && Replayed(c, owner, sh.chain, sh.cache)
  {
    hide Start, Universe, Confluent, Tree, Replayed, Worked, Reached;
    AlwaysFaithful(c, owner, u, workers, events, k);
    AlwaysSafe(c, owner, u, workers, events, k);
  }

  /** Acceptable paths with one last hash have the same hashes all along. */
  lemma {:induction false} SameHashes(c: Crypto, owner: Address, u: set<Block>, p: seq<Block>, q: seq<Block>, h: H256)
    requires HeadersDistinct(c, u) && AcceptedPath(c, owner, u, p) && AcceptedPath(c, owner, u, q)
    requires EndsAt(c, p, h) && EndsAt(c, q, h)
    ensures |p| == |q| && p[|p| - 1].head == q[|q| - 1].head
    ensures |p| > 1 ==> BlockHash(c, p[|p| - 2]) == BlockHash(c, q[|q| - 2])
    decreases |p|
  {
    hide GenesisDifficulty, Le, WorkDone, Valid;
    var m, n := |p| - 1, |q| - 1;
    StepParent(c, owner, u, p, m);
    StepParent(c, owner, u, q, n);
    assert HeadersAgree(c, p[m], q[n]);
    if m > 0 && n > 0 {
      AcceptedFront(c, owner, u, p);
      AcceptedFront(c, owner, u, q);
      SameHashes(c, owner, u, p[..m], q[..n], p[m].head.parent);
    }
  }

  /** A block of an acceptable path is in play; all but genesis follow a block whose hash is not zero. */
  lemma {:induction false} StepParent(c: Crypto, owner: Address, u: set<Block>, p: seq<Block>, i: nat)
    requires HeadersDistinct(c, u) && AcceptedPath(c, owner, u, p) && i < |p|
    ensures p[i] in u
    ensures i == 0 <==> p[i].head.parent == ZeroHash()
    ensures i > 0 ==> p[i].head.parent == BlockHash(c, p[i - 1])
  {
    hide Le, WorkDone, Valid;
    if i > 0 {
      StepParent(c, owner, u, p, i - 1);
      assert AcceptedStep(c, owner, u, p, i) && NonZero(c, p[i - 1]);
    }
  }

  lemma {:induction false} AcceptedFront(c: Crypto, owner: Address, u: set<Block>, p: seq<Block>)
    requires AcceptedPath(c, owner, u, p) && |p| > 1
    ensures AcceptedPath(c, owner, u, p[..|p| - 1])
    ensures EndsAt(c, p[..|p| - 1], p[|p| - 1].head.parent)
    ensures PathState(c, owner, p, |p| - 2) == PathState(c, owner, p[..|p| - 1], |p| - 2)
  {
    hide GenesisDifficulty, Le, WorkDone, Valid;
    var front, b := p[..|p| - 1], p[|p| - 1];
    assert p == front + [b];
    PathStatePrefix(c, owner, front, b, |p| - 2);
    forall i | 0 < i < |front|
      ensures AcceptedStep(c, owner, u, front, i)
    {
      assert AcceptedStep(c, owner, u, p, i);
      PathStatePrefix(c, owner, front, b, i - 1);
    }
    assert AcceptedStep(c, owner, u, p, |p| - 1);
  }

  /** When hash determines body, paths with one last hash are one path. */
  lemma {:induction false} SamePath(c: Crypto, owner: Address, u: set<Block>, p: seq<Block>, q: seq<Block>, h: H256)
    requires HeadersDistinct(c, u) && BodiesDistinct(c, u)
    requires AcceptedPath(c, owner, u, p) && AcceptedPath(c, owner, u, q) && EndsAt(c, p, h) && EndsAt(c, q, h)
    ensures p == q
    decreases |p|
  {
    hide GenesisDifficulty, Le, WorkDone, Valid, AcceptedPath;
    SameHashes(c, owner, u, p, q, h);
    var n := |p| - 1;
    StepParent(c, owner, u, p, n);
    StepParent(c, owner, u, q, n);
    assert BodiesAgree(c, p[n], q[n]);
    if n > 0 {
      AcceptedFront(c, owner, u, p);
      AcceptedFront(c, owner, u, q);
      SamePath(c, owner, u, p[..n], q[..n], p[n].head.parent);
    }
    assert p == p[..n] + [p[n]] && q == q[..n] + [q[n]];
  }

  lemma {:induction false} BodiesMakeConfluent(c: Crypto, owner: Address, u: set<Block>)
    requires HeadersDistinct(c, u) && BodiesDistinct(c, u)
    ensures Confluent(c, owner, u)
  {
    hide HeadersDistinct, BodiesDistinct, AcceptedPath, PathState;
    forall p, q, h | AcceptedPath(c, owner, u, p) && AcceptedPath(c, owner, u, q) && EndsAt(c, p, h) && EndsAt(c, q, h)
      ensures OneState(c, owner, p, q)
    {
      SamePath(c, owner, u, p, q, h);
    }
  }

  lemma {:induction false} StepExtends(c: Crypto, u: set<Block>, sys: System, ev: Event)
    requires HeadersDistinct(c, u) && BodiesDistinct(c, u) && Safe(c, u, sys)
    ensures Extends(sys.shared.chain, Step(c, sys, ev).shared.chain)
  {
    hide GenesisDifficulty, Le, WorkDone, HeadersDistinct, BodiesDistinct, Valid, Replay;
    if ev.Network? && ev.id < |sys.workers| {
      var w := sys.workers[ev.id];
      assert WorkerSafe(c, u, sys.shared, w);
      if w.pc.InsertBlock? {
        InsertExtends(c, u, sys.shared.chain, w.pc.b);
      }
    } else if ev.Commit? && sys.committer.InsertBlock? {
      InsertExtends(c, u, sys.shared.chain, sys.committer.b);
    }
  }

  /** When hash determines body, later states extend earlier ones: no stored block and no cached state
      is ever replaced. */
  lemma {:induction false} NothingIsReplaced(c: Crypto, owner: Address, u: set<Block>, workers: nat,
        events: seq<Event>, i: nat, k: nat)
    requires Universe(c, u, Start(c, owner, workers), events) && BodiesDistinct(c, u) && i <= k <= |events|
    ensures var start := Start(c, owner, workers);
      && Extends(After(c, start, events, i).shared.chain, After(c, start, events, k).shared.chain)
      && CacheExtends(After(c, start, events, i).shared.cache, After(c, start, events, k).shared.cache)
    decreases k
  {
    hide Safe, Faithful, Universe, Start, Step, Confluent, BodiesDistinct, HeadersDistinct;
    var start := Start(c, owner, workers);
    if i < k {
      NothingIsReplaced(c, owner, u, workers, events, i, k - 1);
      AlwaysSafe(c, owner, u, workers, events, k - 1);
      UniverseAt(c, u, start, events, k - 1);
      BodiesMakeConfluent(c, owner, u);
      AlwaysFaithful(c, owner, u, workers, events, k - 1);
      StepStaysFaithful(c, owner, u, After(c, start, events, k - 1), events[k - 1]);
      StepExtends(c, u, After(c, start, events, k - 1), events[k - 1]);
    }
  }

  lemma {:induction false} OwnParent(c: Crypto, u: set<Block>, ch: Chain, b: Block)
    requires HeadersDistinct(c, u) && Tree(c, u, ch) && b in u && b.head.parent in ch.blocks
    ensures b.head.parent != BlockHash(c, b)
  {
    HeaderUnderHash(c, u, ch, b);
  }

  /** The ledger of the concurrent node: in every reachable state, for every stored block, nothing of
      value is spent twice on its path, and its state holds 100 less the fees paid there. */
  lemma {:induction false} LedgerHoldsAlways(c: Crypto, owner: Address, u: set<Block>, workers: nat,
        events: seq<Event>, k: nat, h: H256)
    requires Universe(c, u, Start(c, owner, workers), events) && Confluent(c, owner, u) && k <= |events|
    requires h in After(c, Start(c, owner, workers), events, k).shared.chain.blocks
    ensures var sh := After(c, Start(c, owner, workers), events, k).shared;
      && Tree(c, u, sh.chain) && h in sh.cache
      && LedgerHolds(c, owner, PathTxs(c, u, sh.chain, h), sh.cache[h])
  {
    hide Universe, Start, Confluent, Tree, Replayed, LedgerHolds;
    CacheAlwaysReplays(c, owner, u, workers, events, k);
    var sh := After(c, Start(c, owner, workers), events, k).shared;
    ChainLedgerHolds(c, owner, u, sh.chain, sh.cache, h);
  }
}
