/** One network worker that nobody disturbs: its atomic steps, taken together, do what the sequential
    worker of `Reception` does with a message. */
module Undisturbed {
  import opened Hash
  import opened Types
  import opened Ledger
  import opened Chains
  import opened ChainState
  import opened Interleaving
  import R = Reception

  /** n steps of one worker with nobody in between. */
  ghost function Alone(c: Crypto, sh: Shared, w: Worker, n: nat): (Shared, Worker) {
    if n == 0 then (sh, w)
    else
      var (sh', w') := Alone(c, sh, w, n - 1);
      WorkerStep(c, sh', w')
  }

  ghost function NodeOf(sh: Shared, w: Worker): R.Node {
    R.Node(sh.chain, sh.cache, w.orphans)
  }

  lemma {:induction false} AloneConcat(c: Crypto, sh: Shared, w: Worker, m: nat, n: nat)
    ensures var (sh', w') := Alone(c, sh, w, m);
      Alone(c, sh, w, m + n) == Alone(c, sh', w', n)
  {
    hide WorkerStep;
    if n > 0 {
      AloneConcat(c, sh, w, m, n - 1);
    }
  }

  /** The worker between steps, as the sequential worker would leave it after trying `b`. */
  ghost predicate AfterTrying(c: Crypto, sh: Shared, w: Worker, b: Block, sh': Shared, w': Worker)
    requires R.Ready(NodeOf(sh, w), b)
  {
    && w'.pc == Drain
    && NodeOf(sh', w') == R.Tried(c, NodeOf(sh, w), b)
    && w'.newBlocks == R.Pushed(c, NodeOf(sh, w), b, w.newBlocks)
    && (w'.todo, w'.n, w'.i) == (w.todo, w.n, w.i)
  }

  /** Undisturbed, the steps from the difficulty check on do what the sequential worker does with a
      block whose parent is stored: adopt it if it is admissible and list its hash, or drop it. */
  lemma {:induction false} AloneTries(c: Crypto, sh: Shared, w: Worker, b: Block) returns (n: nat)
    requires w.pc == AskDifficulty(b, b.head.parent) && R.Ready(NodeOf(sh, w), b)
    ensures var (sh', w') := Alone(c, sh, w, n); AfterTrying(c, sh, w, b, sh', w')
  {
    hide GenesisDifficulty, Le, Valid, Replay;
    assert Alone(c, sh, w, 0) == (sh, w);
    var (sh1, w1) := Alone(c, sh, w, 1);
    assert (sh1, w1) == WorkerStep(c, sh, w);
    if w1.pc == Drain {
      n := 1;
    } else {
      var (sh2, w2) := Alone(c, sh, w, 2);
      assert (sh2, w2) == WorkerStep(c, sh1, w1);
      if w2.pc == Drain {
        n := 2;
      } else {
        var (sh3, w3) := Alone(c, sh, w, 3);
        assert (sh3, w3) == WorkerStep(c, sh2, w2);
        assert Alone(c, sh, w, 4) == WorkerStep(c, sh3, w3);
        n := 4;
      }
    }
  }

  /** Undisturbed, a block with its work done is skipped if it is stored, buffered if its parent is
      not, and otherwise tried, as by the sequential worker. */
  lemma {:induction false} AloneHandlesBlock(c: Crypto, sh: Shared, w: Worker, b: Block) returns (n: nat)
    requires w.pc == AskKnown(b)
    requires sh.chain.tip in sh.chain.blocks && sh.chain.blocks.Keys <= sh.cache.Keys
    ensures var (sh', w') := Alone(c, sh, w, n);
      if BlockHash(c, b) in sh.chain.blocks then sh' == sh && w' == w.(pc := NextBlock)
      else if b.head.parent !in sh.chain.blocks then
        && sh' == sh && NodeOf(sh', w') == R.Buffered(NodeOf(sh, w), b)
        && w' == w.(pc := NextBlock, orphans := w'.orphans)
      else AfterTrying(c, sh, w, b, sh', w')
  {
    hide GenesisDifficulty, Le, AfterTrying;
    assert Alone(c, sh, w, 0) == (sh, w);
    var (sh1, w1) := Alone(c, sh, w, 1);
    assert (sh1, w1) == WorkerStep(c, sh, w);
    if BlockHash(c, b) in sh.chain.blocks {
      n := 1;
    } else {
      var (sh2, w2) := Alone(c, sh, w, 2);
      assert (sh2, w2) == WorkerStep(c, sh1, w1);
      n := 2;
      if b.head.parent in sh.chain.blocks {
        var more := AloneTries(c, sh2, w2, b);
        AloneConcat(c, sh, w, 2, more);
        SameTrying(c, sh, w, w2, b, Alone(c, sh2, w2, more).0, Alone(c, sh2, w2, more).1);
        n := 2 + more;
      }
    }
  }

  lemma {:induction false} SameTrying(c: Crypto, sh: Shared, w: Worker, w2: Worker, b: Block, sh': Shared, w': Worker)
    requires R.Ready(NodeOf(sh, w), b) && w2 == w.(pc := w2.pc)
    ensures AfterTrying(c, sh, w, b, sh', w') <==> AfterTrying(c, sh, w2, b, sh', w')
  {
  }

  /** Undisturbed, an orphan that waits for the hash being drained is removed and tried. */
  lemma {:induction false} AloneHandlesOrphan(c: Crypto, sh: Shared, w: Worker) returns (n: nat)
    requires w.pc == Drain && w.n < |w.newBlocks| && w.i < |w.orphans|
    requires w.orphans[w.i].head.parent == w.newBlocks[w.n] && w.newBlocks[w.n] in sh.chain.blocks
    requires sh.chain.tip in sh.chain.blocks && sh.chain.blocks.Keys <= sh.cache.Keys
    ensures var (sh', w') := Alone(c, sh, w, n);
      AfterTrying(c, sh, w.(orphans := R.Without(NodeOf(sh, w), w.i).orphans), w.orphans[w.i], sh', w')
  {
    hide GenesisDifficulty, Le, AfterTrying;
    var b := w.orphans[w.i];
    var (sh1, w1) := (sh, w.(orphans := R.Without(NodeOf(sh, w), w.i).orphans, pc := AskDifficulty(b, b.head.parent)));
    assert Alone(c, sh, w, 0) == (sh, w);
    assert WorkerStep(c, sh, w) == (sh1, w1);
    assert Alone(c, sh, w, 1) == (sh1, w1);
    hide WorkerStep;
    var more := AloneTries(c, sh1, w1, b);
    AloneConcat(c, sh, w, 1, more);
    SameTrying(c, sh, w.(orphans := w1.orphans), w1, b, Alone(c, sh1, w1, more).0, Alone(c, sh1, w1, more).1);
    n := 1 + more;
  }

  // ---- A whole message ---------------------------------------------------------------------

  /** What lets every lookup succeed: the tip is stored, stored blocks have cached states, and listed
      hashes are stored. */
  ghost predicate Steady(sh: Shared, w: Worker) {
    && sh.chain.tip in sh.chain.blocks && sh.chain.blocks.Keys <= sh.cache.Keys
    && forall h {:trigger h in w.newBlocks} :: h in w.newBlocks ==> h in sh.chain.blocks
  }

  /** The worklist of earlier blocks is done. */
  ghost predicate Between(sh: Shared, w: Worker) {
    Steady(sh, w) && w.pc == NextBlock && w.n == |w.newBlocks| && w.i == 0
  }

  ghost predicate Draining(sh: Shared, w: Worker) {
    && Steady(sh, w) && w.pc == Drain && w.n <= |w.newBlocks| && (w.n == |w.newBlocks| ==> w.i == 0)
  }

  /** Trying a block leaves everything steady. */
  lemma {:induction false} TryingIsSteady(c: Crypto, sh: Shared, w: Worker, b: Block, sh': Shared, w': Worker)
    requires Steady(sh, w) && R.Ready(NodeOf(sh, w), b) && AfterTrying(c, sh, w, b, sh', w')
    ensures Steady(sh', w') && |w.newBlocks| <= |w'.newBlocks|
  {
    hide Admissible;
  }

  /** The steps of the worklist are the worklist loops. */
  lemma {:induction false} AloneDrains(c: Crypto, sh: Shared, w: Worker) returns (n: nat)
    requires Draining(sh, w)
    ensures var (sh', w') := Alone(c, sh, w, n);
      && Between(sh', w') && w'.todo == w.todo
      && (NodeOf(sh', w'), w'.newBlocks) == R.DrainFrom(c, NodeOf(sh, w), w.newBlocks, w.n, w.i)
    decreases |w.orphans|, |w.newBlocks| - w.n, |w.orphans| - w.i
  {
    hide R.DrainFrom, WorkerStep, AfterTrying;
    var nd := NodeOf(sh, w);
    if w.n < |w.newBlocks| && w.i < |w.orphans| && w.orphans[w.i].head.parent == w.newBlocks[w.n] {
      assert w.newBlocks[w.n] in w.newBlocks;
      var tries := AloneHandlesOrphan(c, sh, w);
      var (sh1, w1) := Alone(c, sh, w, tries);
      TriedOrphan(c, sh, w, sh1, w1);
      R.DrainTries(c, nd, w.newBlocks, w.n, w.i);
      var more := AloneDrains(c, sh1, w1);
      AloneConcat(c, sh, w, tries, more);
      n := tries + more;
    } else {
      var w1 := DrainStep(c, sh, w);
      if w.n < |w.newBlocks| {
        if w.i < |w.orphans| {
          R.DrainSkips(c, nd, w.newBlocks, w.n, w.i);
        } else {
          R.DrainNext(c, nd, w.newBlocks, w.n, w.i);
        }
        var more := AloneDrains(c, sh, w1);
        AloneConcat(c, sh, w, 1, more);
        n := 1 + more;
      } else {
        R.DrainEnds(c, nd, w.newBlocks, w.n);
        n := 1;
      }
    }
  }

  /** A step of the worklist that tries nothing. */
  lemma {:induction false} DrainStep(c: Crypto, sh: Shared, w: Worker) returns (w': Worker)
    requires w.pc == Drain
    requires w.n < |w.newBlocks| && w.i < |w.orphans| ==> w.orphans[w.i].head.parent != w.newBlocks[w.n]
    ensures Alone(c, sh, w, 1) == (sh, w')
    ensures w' == if w.n >= |w.newBlocks| then w.(pc := NextBlock)
                  else if w.i >= |w.orphans| then w.(n := w.n + 1, i := 0)
                  else w.(i := w.i + 1)
  {
    assert Alone(c, sh, w, 0) == (sh, w);
    w' := WorkerStep(c, sh, w).1;
  }

  lemma {:induction false} TriedOrphan(c: Crypto, sh: Shared, w: Worker, sh': Shared, w': Worker)
    requires Draining(sh, w) && w.n < |w.newBlocks| && w.i < |w.orphans|
    requires R.Ready(R.Without(NodeOf(sh, w), w.i), w.orphans[w.i])
    requires AfterTrying(c, sh, w.(orphans := R.Without(NodeOf(sh, w), w.i).orphans), w.orphans[w.i], sh', w')
    ensures Draining(sh', w') && |w'.orphans| == |w.orphans| - 1
    ensures var nd := R.Without(NodeOf(sh, w), w.i);
      && NodeOf(sh', w') == R.Tried(c, nd, w.orphans[w.i])
      && w'.newBlocks == R.Pushed(c, nd, w.orphans[w.i], w.newBlocks)
      && (w'.todo, w'.n, w'.i) == (w.todo, w.n, w.i)
  {
    hide Admissible;
    TryingIsSteady(c, sh, w.(orphans := R.Without(NodeOf(sh, w), w.i).orphans), w.orphans[w.i], sh', w');
  }

  /** The steps for one block of a message. */
  lemma {:induction false} AloneReceives(c: Crypto, sh: Shared, w: Worker) returns (n: nat)
    requires Between(sh, w) && w.todo != []
    ensures var (sh', w') := Alone(c, sh, w, n);
      && Between(sh', w') && w'.todo == w.todo[1..]
      && (NodeOf(sh', w'), w'.newBlocks) == R.Received(c, NodeOf(sh, w), w.newBlocks, w.todo[0])
  {
    hide R.DrainFrom, AfterTrying, WorkDone;
    var b := w.todo[0];
    assert Alone(c, sh, w, 0) == (sh, w);
    var w1 := w.(todo := w.todo[1..], pc := if WorkDone(c, b) then AskKnown(b) else NextBlock);
    assert WorkerStep(c, sh, w) == (sh, w1);
    assert Alone(c, sh, w, 1) == (sh, w1);
    hide WorkerStep;
    n := 1;
    if WorkDone(c, b) {
      var more := AloneHandlesBlock(c, sh, w1, b);
      AloneConcat(c, sh, w, 1, more);
      n := 1 + more;
      if BlockHash(c, b) !in sh.chain.blocks && b.head.parent in sh.chain.blocks {
        var (sh2, w2) := Alone(c, sh, w, n);
        TriedBlock(c, sh, w1, b, sh2, w2);
        var drains := AloneDrains(c, sh2, w2);
        AloneConcat(c, sh, w, n, drains);
        n := n + drains;
      }
    }
  }

  lemma {:induction false} TriedBlock(c: Crypto, sh: Shared, w: Worker, b: Block, sh': Shared, w': Worker)
    requires Steady(sh, w) && w.n == |w.newBlocks| && w.i == 0
    requires R.Ready(NodeOf(sh, w), b) && AfterTrying(c, sh, w, b, sh', w')
    ensures Draining(sh', w') && w'.todo == w.todo && w'.n == |w.newBlocks| && w'.i == 0
    ensures NodeOf(sh', w') == R.Tried(c, NodeOf(sh, w), b)
    ensures w'.newBlocks == R.Pushed(c, NodeOf(sh, w), b, w.newBlocks)
  {
    hide Admissible;
    TryingIsSteady(c, sh, w, b, sh', w');
  }

  /** An undisturbed message, run to completion by atomic steps, leaves the chain, cache, orphans and list
      that `Reception.Worker.HandleBlocks` leaves: both are `Reception.ReceivedAll`. */
  lemma {:induction false} AloneIsSequential(c: Crypto, sh: Shared, w: Worker, k: nat) returns (n: nat)
    requires Between(sh, w) && w.newBlocks == [] && k <= |w.todo|
    ensures var (sh', w') := Alone(c, sh, w, n);
      && Between(sh', w') && w'.todo == w.todo[k..]
      && (NodeOf(sh', w'), w'.newBlocks) == R.ReceivedAll(c, NodeOf(sh, w), w.todo, k)
    decreases k
  {
    hide WorkerStep, R.Received, Between;
    if k == 0 {
      assert Alone(c, sh, w, 0) == (sh, w);
      n := 0;
    } else {
      var first := AloneIsSequential(c, sh, w, k - 1);
      var (sh1, w1) := Alone(c, sh, w, first);
      assert w1.todo[0] == w.todo[k - 1] && w1.todo[1..] == w.todo[k..];
      var more := AloneReceives(c, sh1, w1);
      AloneConcat(c, sh, w, first, more);
      n := first + more;
    }
  }

  // ---- The other threads, undisturbed ------------------------------------------------------

  /** The miner's two steps build a block on the tip from what it drew, and send it to the committer
      exactly when its hash does not exceed the difficulty. */
  lemma {:induction false} MinerAlone(c: Crypto, sys: System, nonce: u32, timestamp: nat, root: H256,
        txs: seq<SignedTransaction>)
    requires sys.miner == Mining
    ensures var b := Block(Header(sys.shared.chain.tip, nonce, GenesisDifficulty(), timestamp, root), txs);
      Step(c, Step(c, sys, MinerReadsTip(nonce, timestamp, root, txs)), MinerSends) ==
        if BigEndian(c.headerHash(b.head).bytes) <= BigEndian(GenesisDifficulty().bytes)
        then sys.(finished := sys.finished + [b]) else sys
  {
    hide GenesisDifficulty, Le;
    var b := Block(Header(sys.shared.chain.tip, nonce, GenesisDifficulty(), timestamp, root), txs);
    WorkIsNumeric(c, b);
    var sys1 := Step(c, sys, MinerReadsTip(nonce, timestamp, root, txs));
    assert sys1 == sys.(miner := Built(b));
  }

  /** The committer takes the oldest found block, and does with it what `Mining.Committer.Commit` does:
      caches the replay and inserts it, in four steps, or drops it after two. */
  lemma {:induction false} CommitterAlone(c: Crypto, u: set<Block>, sys: System)
    requires Safe(c, u, sys) && sys.committer == NextBlock && sys.finished != []
    ensures var b, chain, cache := sys.finished[0], sys.shared.chain, sys.shared.cache;
      && b.head.parent in chain.blocks && b.head.parent in cache && chain.tip in chain.blocks
      && var checked := Step(c, Step(c, sys, Commit), Commit);
      if Valid(c, cache[b.head.parent], b.txs) then
        Step(c, Step(c, checked, Commit), Commit) ==
          sys.(shared := Shared(Inserted(c, chain, b), Cached(c, cache, b)), finished := sys.finished[1..])
      else checked == sys.(finished := sys.finished[1..])
  {
    hide GenesisDifficulty, Le, WorkDone, Valid, Replay;
    var b, sh := sys.finished[0], sys.shared;
    assert Checked(c, u, sh, b);
    TipStored(c, u, sh.chain);
    var taken := sys.(finished := sys.finished[1..], committer := ReadState(b));
    assert Step(c, sys, Commit) == taken;
    if Valid(c, sh.cache[b.head.parent], b.txs) {
      var s := Replay(c, sh.cache[b.head.parent], b.txs);
      var checked := taken.(committer := WriteState(b, s));
      assert Step(c, taken, Commit) == checked;
      var cached := checked.(shared := sh.(cache := Cached(c, sh.cache, b)), committer := InsertBlock(b));
      assert Step(c, checked, Commit) == cached;
    }
  }

  /** The generator's two steps read the state cached for the tip. */
  lemma {:induction false} GeneratorAlone(c: Crypto, sys: System)
    requires sys.shared.chain.tip in sys.shared.cache
    ensures var tip := sys.shared.chain.tip;
      Step(c, Step(c, sys, GeneratorReadsTip), GeneratorReadsState) ==
        sys.(generator := HasState(tip, sys.shared.cache[tip]))
  {
  }

  /** The state the generator works on is the one cached for the block it read as tip. */
  ghost predicate ReadsCache(sys: System) {
    sys.generator.HasState? ==>
      && sys.generator.tip in sys.shared.chain.blocks && sys.generator.tip in sys.shared.cache
      && sys.generator.s == sys.shared.cache[sys.generator.tip]
  }

  /** Under any schedule and at any later time, the state the generator has read for a tip is still the
      cached one, which is the replay of the path to that tip. */
  lemma {:induction false} GeneratorReadsReplay(c: Crypto, owner: Address, u: set<Block>, workers: nat,
        events: seq<Event>, k: nat)
    requires Universe(c, u, Start(c, owner, workers), events) && Confluent(c, owner, u) && k <= |events|
    ensures var sys := After(c, Start(c, owner, workers), events, k);
      && ReadsCache(sys)
      && Tree(c, u, sys.shared.chain)
      && (sys.generator.HasState? ==>
            sys.generator.s == Replay(c, Initial(owner), PathTxs(c, u, sys.shared.chain, sys.generator.tip)))
  {
    hide Start, Universe, Confluent, Tree, Replayed, Worked, Reached, Safe, Faithful, Step, Initial, Replay, PathTxs, InPlay;
    hide Valid;
    var start := Start(c, owner, workers);
    var sys := After(c, start, events, k);
    if k > 0 {
      GeneratorReadsReplay(c, owner, u, workers, events, k - 1);
      AlwaysSafe(c, owner, u, workers, events, k - 1);
      AlwaysFaithful(c, owner, u, workers, events, k - 1);
      UniverseAt(c, u, start, events, k - 1);
      StepReadsCache(c, owner, u, After(c, start, events, k - 1), events[k - 1]);
    } else {
      StartReadsCache(c, owner, workers);
    }
    CacheAlwaysReplays(c, owner, u, workers, events, k);
    if sys.generator.HasState? {
      CacheEqualsReplay(c, owner, u, sys.shared.chain, sys.shared.cache, sys.generator.tip);
    }
  }

  lemma {:induction false} StartReadsCache(c: Crypto, owner: Address, workers: nat)
    ensures ReadsCache(Start(c, owner, workers))
  {
  }

  lemma {:induction false} StepReadsCache(c: Crypto, owner: Address, u: set<Block>, sys: System, ev: Event)
    requires HeadersDistinct(c, u) && Confluent(c, owner, u) && Safe(c, u, sys) && Faithful(c, owner, u, sys)
    requires InPlay(u, sys, ev) && ReadsCache(sys)
    ensures ReadsCache(Step(c, sys, ev))
  {
    StepStaysFaithful(c, owner, u, sys, ev);
    StepIsSafe(c, u, sys, ev);
    hide Confluent, Faithful, HeadersDistinct, SharedSafe, WorkerSafe, WorkerStep, CheckStep, InPlay, Checked, PcSafe;
  }

  // ---- Runs --------------------------------------------------------------------------------

  ghost function End(c: Crypto, sys: System, events: seq<Event>): System {
    After(c, sys, events, |events|)
  }

  lemma {:induction false} AfterConcat(c: Crypto, sys: System, first: seq<Event>, more: seq<Event>, k: nat)
    requires k <= |more|
    ensures After(c, sys, first + more, |first| + k) == After(c, End(c, sys, first), more, k)
    decreases k
  {
    hide Step;
    if k == 0 {
      AfterPrefix(c, sys, first, more, |first|);
    } else {
      AfterConcat(c, sys, first, more, k - 1);
    }
  }

  lemma {:induction false} AfterPrefix(c: Crypto, sys: System, first: seq<Event>, more: seq<Event>, k: nat)
    requires k <= |first|
    ensures After(c, sys, first + more, k) == After(c, sys, first, k)
  {
    hide Step;
    if k > 0 {
      AfterPrefix(c, sys, first, more, k - 1);
    }
  }

  lemma {:induction false} UniverseConcat(c: Crypto, u: set<Block>, sys: System, first: seq<Event>, more: seq<Event>)
    requires Universe(c, u, sys, first) && Universe(c, u, End(c, sys, first), more)
    ensures Universe(c, u, sys, first + more)
    ensures End(c, sys, first + more) == End(c, End(c, sys, first), more)
  {
    hide HeadersDistinct, InPlay, Step;
    forall k | 0 <= k < |first + more|
      ensures InPlayAt(c, u, sys, first + more, k)
    {
      if k < |first| {
        AfterPrefix(c, sys, first, more, k);
        assert InPlayAt(c, u, sys, first, k);
      } else {
        AfterConcat(c, sys, first, more, k - |first|);
        assert InPlayAt(c, u, End(c, sys, first), more, k - |first|);
      }
    }
    AfterConcat(c, sys, first, more, |more|);
  }

  lemma {:induction false} OneEvent(c: Crypto, u: set<Block>, sys: System, ev: Event)
    requires HeadersDistinct(c, u) && InPlay(u, sys, ev)
    ensures Universe(c, u, sys, [ev]) && End(c, sys, [ev]) == Step(c, sys, ev)
  {
    hide HeadersDistinct, InPlay, Step;
    assert After(c, sys, [ev], 0) == sys;
    assert InPlayAt(c, u, sys, [ev], 0);
  }

  /** A run followed by one event. */
  lemma {:induction false} ThenEvent(c: Crypto, u: set<Block>, sys: System, events: seq<Event>, ev: Event)
    requires Universe(c, u, sys, events) && InPlay(u, End(c, sys, events), ev)
    ensures Universe(c, u, sys, events + [ev]) && End(c, sys, events + [ev]) == Step(c, End(c, sys, events), ev)
  {
    hide HeadersDistinct, InPlay, Step;
    OneEvent(c, u, End(c, sys, events), ev);
    UniverseConcat(c, u, sys, events, [ev]);
  }

  ghost function WithWorker(sys: System, id: nat, pair: (Shared, Worker)): System
    requires id < |sys.workers|
  {
    sys.(shared := pair.0, workers := sys.workers[id := pair.1])
  }

  /** `more` goes on from `events` without the miner reading the tip. */
  ghost predicate Continues(events: seq<Event>, more: seq<Event>) {
    events <= more && forall k :: |events| <= k < |more| ==> !more[k].MinerReadsTip?
  }

  /** Followed by n steps of one worker. */
  lemma {:induction false} ThenAlone(c: Crypto, u: set<Block>, sys: System, events: seq<Event>, id: nat, n: nat)
    returns (more: seq<Event>)
    requires Universe(c, u, sys, events) && id < |End(c, sys, events).workers|
    ensures Universe(c, u, sys, more) && Continues(events, more)
    ensures var mid := End(c, sys, events);
      End(c, sys, more) == WithWorker(mid, id, Alone(c, mid.shared, mid.workers[id], n))
  {
    hide WorkerStep, Universe;
    var mid := End(c, sys, events);
    if n == 0 {
      more := events;
      assert mid.workers[id := mid.workers[id]] == mid.workers;
    } else {
      var front := ThenAlone(c, u, sys, events, id, n - 1);
      more := front + [Network(id)];
      ThenEvent(c, u, sys, front, Network(id));
    }
  }

  /** A worker that has just taken a message. */
  ghost function Holding(blocks: seq<Block>, orphans: seq<Block>): Worker {
    Worker(blocks, orphans, [], 0, 0, NextBlock)
  }

  /** Worker `id` is between messages. */
  ghost predicate WaitsAt(sys: System, id: nat) {
    id < |sys.workers| && sys.workers[id].pc == NextBlock && sys.workers[id].todo == []
  }

  /** Followed by a message to a waiting worker, and n steps of that worker. */
  lemma {:induction false} ThenSend(c: Crypto, u: set<Block>, sys: System, events: seq<Event>,
        id: nat, blocks: seq<Block>, n: nat)
    returns (more: seq<Event>)
    requires Universe(c, u, sys, events) && WaitsAt(End(c, sys, events), id)
    requires forall k :: 0 <= k < |blocks| ==> blocks[k] in u
    ensures Universe(c, u, sys, more) && Continues(events, more)
    ensures var mid := End(c, sys, events);
      End(c, sys, more) == WithWorker(mid, id, Alone(c, mid.shared, Holding(blocks, mid.workers[id].orphans), n))
  {
    hide Universe, Alone, End, WorkerStep;
    ThenEvent(c, u, sys, events, Deliver(id, blocks));
    more := ThenAlone(c, u, sys, events + [Deliver(id, blocks)], id, n);
  }

  /** From any reachable state of the node: a message handed to a waiting worker that is then alone until
      it waits again changes the chain, the cache, its orphans and its list as `ReceivedAll` says, and
      nothing else. */
  lemma {:induction false} MessageAlone(c: Crypto, owner: Address, u: set<Block>, workers: nat,
        events: seq<Event>, id: nat, blocks: seq<Block>)
    returns (more: seq<Event>)
    requires Universe(c, u, Start(c, owner, workers), events)
    requires WaitsAt(End(c, Start(c, owner, workers), events), id)
    requires forall k :: 0 <= k < |blocks| ==> blocks[k] in u
    ensures Universe(c, u, Start(c, owner, workers), more)
    ensures var sys, sys' := End(c, Start(c, owner, workers), events), End(c, Start(c, owner, workers), more);
      && WaitsAt(sys', id)
      && (NodeOf(sys'.shared, sys'.workers[id]), sys'.workers[id].newBlocks) ==
           R.ReceivedAll(c, NodeOf(sys.shared, sys.workers[id]), blocks, |blocks|)
      && sys' == sys.(shared := sys'.shared, workers := sys.workers[id := sys'.workers[id]])
  {
    hide Universe, Alone, Safe, R.ReceivedAll;
    var start := Start(c, owner, workers);
    var sys := End(c, start, events);
    NothingPanics(c, owner, u, workers, events, |events|);
    var w := Holding(blocks, sys.workers[id].orphans);
    var n := AloneIsSequential(c, sys.shared, w, |blocks|);
    more := ThenSend(c, u, start, events, id, blocks, n);
    assert NodeOf(sys.shared, w) == NodeOf(sys.shared, sys.workers[id]);
  }
}
