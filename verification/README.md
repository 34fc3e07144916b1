# A proof-of-work node, verified

This project models the parts of a small proof-of-work node that decide what is accepted, and
proves properties of whole runs of it. It covers

- the ledger: unspent coins, the validation of a block's transactions, the per-block state cache;
- the block tree, the first-seen longest-chain rule, and the walks over it;
- reception of blocks by a network worker, with its orphan buffer and worklist;
- the whole node as an interleaved system of network workers, miner, miner worker and generator,
  each `lock()` scope one atomic step;
- the Merkle tree, the order on hashes, the miner's batches and the transaction generator.

`dafny verify dfyconfig.toml` checks everything.

## How to read it

| file | about |
|---|---|
| `hash.dfy` | 32-byte hashes and their order |
| `merkle.dfy` | Merkle tree, proofs, verification |
| `types.dfy` | transactions, blocks, the cryptographic primitives |
| `ledger.dfy` | `State`, the loop of `check_tx_state`, replay |
| `spending.dfy` | no double spend, authorised spending |
| `accounting.dfy` | totals, fees, exact accounting |
| `conservation.dfy` | which input and output lists conserve value, exactly |
| `blockchain.dfy` | `Blockchain`, paths, the tip |
| `difficulty.dfy` | the difficulty literal as a number |
| `chainstate.dfy` | chain and state cache together |
| `reception.dfy` | one network worker: `Blocks` messages and orphans |
| `arrival.dfy` | the accepted set does not depend on arrival order |
| `interleaving.dfy` | all threads, all schedules |
| `undisturbed.dfy` | each thread's atomic steps, undisturbed, against its sequential loop |
| `confluence.dfy`, `oneworker.dfy` | exactly when the shared cache replays the stored bodies in every schedule |
| `walks.dfy` | ancestor walks that drop the lock at every step |
| `miner.dfy`, `generator.dfy` | building blocks and transactions |

SHA-256, Ed25519 and address derivation are arbitrary functions (`Types.Crypto`). Where a result
needs something of them it is a premise on the finitely many objects of the run or path in
question: `Chains.HeadersDistinct` (equal block hashes mean equal headers, none is zero),
`Chains.BodiesDistinct` (equal block hashes mean equal blocks; a block's hash covers only its header
and reception never recomputes the Merkle root, so this is not automatic),
`Spending.HashesDistinct` (the same for signed transactions), `Merkle.CollisionFree` and
`Generating.Signs`. Where the code does not meet a property on every input, the project gives a
failing input and the exact condition:

- The shared cache replays the stored bodies in every run of a node with two or more network workers
  iff acceptable paths that end in one hash lead to one state (`Interleaving.Confluent`; hash
  determining body implies it). Otherwise two workers that hold different bodies under one header can
  leave one stored under the other's state. With one network worker it is enough, and necessary, that
  such forks occur only right above genesis and between blocks the miner does not build
  (`OneWorker.HarmlessForks`).
- Among input lists, validation conserves value for exactly those that count no outpoint twice modulo
  2^32, and among output lists for exactly those that leave no more than their 32-bit sum
  (`Conservation.SoundInputs`, `SoundOutputs`). Each condition is exact for
  its list over all transactions that carry the list, not for every single transaction;
  `Accounting.Regular` implies both. Where a transaction lists an input twice, or its
  outputs wrap, the code accepts it and the supply can grow: from the initial state one signed
  transaction turns 100 into 200, and another 100 into 2^32 + 100.
- No transaction of value occurs twice in a history iff whatever occurs twice is charged for, its output
  sum being no positive multiple of 2^32 (`Spending.RepeatsAreCharged`). Otherwise a coin can be made
  again and spent again.
- Without digest collisions, acceptance of a Merkle proof of length k means membership iff k is at least
  the depth of the tree, and lists of m and of n data can share a root iff their trees have one depth.

32-bit sums wrap, as they do in a release build. Output positions are cast to one byte.

The node has one constant difficulty (`ChainState.Worked`), although the repository's own README
speaks of adjusting it; and a block whose parent is stored is added only if its transactions are
valid on the parent's state, which that README does not mention. The model follows the code.

## Model

| member | source | states |
|---|---|---|
| Hash.CmpIsNumeric | src/types/hash.rs:92-104 | comparing two 128-bit halves is comparing 256-bit big-endian integers |
| Hash.CmpIsLexicographic | src/types/hash.rs:92-110 | the comparison is also that of the bytes from the left, and equal only for equal hashes |
| Hash.LeIsTotalOrder | src/types/hash.rs:92-110 | `<=` on hashes is a total order and the numeric test that proof of work intends |
| Merkle.New | src/types/merkle.rs:10-84 | the build loops terminate with the tree of the data: padded levels, each the pairing of the one below, one node on top |
| Merkle.Climb | src/types/merkle.rs:134-142 | below the top every sibling exists, and a node hashed with its sibling, the even one first, gives the parent at half the index |
| Merkle.Proof | src/types/merkle.rs:123-145 | the siblings on the way up, or nothing for an index outside the leaf level; no access is out of bounds |
| Merkle.Verify | src/types/merkle.rs:150-188 | accepts iff the index is in range and folding the proof over the datum gives the root; an index out of range is refused |
| Merkle.CeilLog2IsExact | src/types/merkle.rs:33-61 | the depth function is the least k with n <= 2^k |
| Merkle.Depth | src/types/merkle.rs:33-61 | a tree over m nodes has exactly ceil(log2 m) levels above the leaves |
| Merkle.RoundTrip | src/types/merkle.rs:123-188 | every datum of every non-empty list verifies with its own proof, of exactly logarithmic length |
| Merkle.PaddingIsRefused | src/types/merkle.rs:26-28 | a node that only pads the leaf level has a proof that folds to the root, and is refused with it for its index alone |
| Merkle.Leaves | src/types/merkle.rs:20-30 | the leaf level starts with the hashes of the data in order, and the root of no data is zero |
| Merkle.Soundness | src/types/merkle.rs:150-188 | without collisions a proof of the tree's depth is accepted iff the datum is the i-th leaf and the proof is the tree's own |
| Merkle.ShortProofAccepts | src/types/merkle.rs:160-185 | a proof of every length k below the depth is accepted for an inner node, k levels below the root, and hashes only pairs of the tree |
| Merkle.LongProofRefused | src/types/merkle.rs:150-188 | a proof longer than the depth is accepted for nothing, if no pair hashed in it digests to a leaf |
| Merkle.MembershipIffDepth | src/types/merkle.rs:150-188 | a verifier that fixes the proof length at k may conclude membership iff k is at least the depth |
| Merkle.Binding | src/types/merkle.rs:86-112 | without collisions two lists of one length have equal roots iff their leaf hashes are equal |
| Merkle.SameRootIff | src/types/merkle.rs:22-112 | without collisions two lists of whatever lengths have equal roots iff their trees are equally high and their leaf hashes agree when spread out, by repetition of last nodes, to the perfect tree of that height |
| Merkle.LengthsShareRootIff | src/types/merkle.rs:22-84 | lists of m and of n data can share a root without collision iff ceil(log2 m) = ceil(log2 n) |
| Merkle.RepeatedLastLeaf | src/types/merkle.rs:26-28 | the nearest case, with no premise on digests: an odd list and the list with its last datum repeated have the same trees |
| Ledger.State.constructor | src/types/transaction.rs:125-141 | one coin of 100 at the zero outpoint, held by the address of the given key |
| Ledger.InitialCoin | src/types/transaction.rs:130-131 | the initial state has an entry only at the all-zero hash and position 0, of 100 for its owner |
| Ledger.State.Update | src/types/transaction.rs:143-158 | the in-place update is the replay function all ledger results are about |
| Ledger.UpdatedLookup | src/types/transaction.rs:143-158 | an entry after an update was written by it or was there and not listed; an entry not listed survives or is written over |
| Ledger.UpdateEffect | src/types/transaction.rs:143-158 | at the transaction's own hash each byte position holds the last output cast to it; every other entry is there, unchanged, unless an input names it |
| Ledger.SumOwnedInputs | src/network/worker.rs:84-100 | fails iff some input names an entry that is missing or has another owner; otherwise the exact sum modulo 2^32 |
| Ledger.WrappedOutputs | src/network/worker.rs:102 | the exact output sum modulo 2^32 |
| Ledger.Apply | src/network/worker.rs:110-115 | removals and insertions of validation do what `State::update` does |
| Ledger.CheckTxs | src/network/worker.rs:73-121 | accepts exactly the lists whose every transaction, on the state its predecessors leave, has a signature that verifies for its key, inputs that are there and held by the address of that key, and a 32-bit input sum not below the 32-bit output sum; computes their replay |
| Ledger.ReplayConcat | src/network/worker.rs:73-116 | validating and replaying two lists in turn is validating and replaying their concatenation |
| Spending.Provenance | src/network/worker.rs:113-115 | every entry is the initial coin or was written by an earlier transaction whose hash it carries |
| Spending.Rewritten | src/network/worker.rs:110-115 | an outpoint that was spent and is present again was written in between |
| Spending.SpentOnce | src/network/worker.rs:73-116 | if whatever occurs twice is charged for, an outpoint listed at two positions held nothing at either, by descent on the first |
| Spending.NoDoubleSpend | src/network/worker.rs:73-116 | under the same premise no outpoint holding value is consumed at two positions of a whole history |
| Spending.NoTransactionTwice | src/network/worker.rs:73-116 | and no transaction with a positive output occurs twice in it |
| Spending.NothingTwiceIffCharged | src/network/worker.rs:73-116 | the premise is exact: in a valid history only valueless transactions occur twice iff whatever occurs twice has an output sum that is no positive multiple of 2^32 |
| Spending.ValueNeedsValueIffCharged | src/network/worker.rs:84-106 | a signed transaction of positive output lists an input of value on every state it passes on iff its output sum is no multiple of 2^32 |
| Spending.UnchargedCoinSpentTwice | src/network/worker.rs:84-116 | on any state, the coin of a transaction without inputs that is charged nothing is spent, made again, and spent again |
| Spending.DoubleSpendFromInitial | src/network/worker.rs:84-116 | such a history on the initial state: a coin of 2^31 is consumed at two positions |
| Spending.ValuelessMayRepeat | src/network/worker.rs:84-106 | positivity is needed: a transaction without inputs and value is valid any number of times |
| Spending.WrittenKeysAreFresh | src/network/worker.rs:113-115 | a key about to be written holds no value, as a consequence of no double spend |
| Spending.SpendingIsAuthorised | src/network/worker.rs:73-116 | in one list, with no hash premise: an entry survives, or a transaction has it among its inputs with a signature that verifies for a key of its owner's address, or its key carries the hash of a listed transaction |
| Spending.OnlyOwnersSpend | src/network/worker.rs:73-116 | over a history with distinct hashes an entry survives unchanged or a transaction between has it among its inputs with a signature that verifies for a key of its owner's address |
| Accounting.InitialTotal | src/types/transaction.rs:125-141 | the initial state holds 100 |
| Accounting.InputSumNeverWraps | src/network/worker.rs:84-94 | with distinct inputs every partial input sum is at most the state's total, so 32 bits suffice |
| Accounting.PassingConserves | src/network/worker.rs:84-115 | a regular transaction that passes never raises the total |
| Accounting.ExactAccounting | src/network/worker.rs:84-115 | along a valid history the total is exactly 100 less the fees at every position, and the fees never fall and never exceed 100 |
| Conservation.CreateKeeps | src/network/worker.rs:113-115 | outputs written one after the other, positions cast to one byte, add at most what the last writers of each byte hold, and exactly that to an empty state |
| Conservation.SpendTakesSum | src/network/worker.rs:84-112 | when nothing is counted twice modulo 2^32, removing the inputs takes at least their wrapped sum out of the state |
| Conservation.SoundConserves | src/network/worker.rs:84-115 | a transaction sound on both sides that passes never raises the total |
| Conservation.RegularIsSound | src/network/worker.rs:84-106 | distinct inputs and an output sum below 2^32 are sound |
| Conservation.ReplayConserves | src/network/worker.rs:73-116 | on any state: as long as the first k transactions of a sound list pass, whatever the rest do, the state they leave holds no more than the state validation started from |
| Conservation.ConservesIffDistinct | src/network/worker.rs:84-112 | for every input list: validation conserves value, for all states, signers and sound outputs, iff the list counts no outpoint twice modulo 2^32; below 2^32 inputs, iff it has no repetition |
| Conservation.ConservesIffExact | src/network/worker.rs:102-115 | for every output list: validation conserves value, for all states, signers and sound inputs, iff the outputs leave no more than their 32-bit sum; up to 256 outputs, iff their exact sum fits in 32 bits |
| Conservation.RepeatedInputFromInitial | src/network/worker.rs:84-115 | on the initial state the code accepts a transaction listing the initial coin twice, and 200 are left of 100 |
| Conservation.WrappedOutputsFromInitial | src/network/worker.rs:102-115 | and one whose outputs wrap to 100, which leaves 2^32 + 100 |
| Chains.Blockchain.constructor | src/blockchain/mod.rs:16-55 | a chain of the all-zero genesis header alone, which is the tip |
| Chains.Blockchain.Insert | src/blockchain/mod.rs:58-67 | the block is stored under its header's hash, one above its parent; the tip moves only to a strictly greater height |
| Difficulty.GenesisDifficultyValue | src/blockchain/mod.rs:41 | the difficulty, read as one number, is the literal of the source |
| Chains.InsertKeepsTree | src/blockchain/mod.rs:58-67 | insertion keeps every block linked one above its parent, loses no key and changes no height, even for a second body under one header |
| Chains.TipIsFirstHighest | src/blockchain/mod.rs:58-72 | after any run of inserts the tip has maximum height and everything present before it was inserted is strictly lower |
| Chains.PathToIsPath | src/blockchain/mod.rs:75-88 | the computed path runs from genesis to the block along parent links |
| Chains.PathIsUnique | src/blockchain/mod.rs:75-88 | it is the only such path, and has no repetition |
| Chains.Blockchain.AllBlocksInLongestChain | src/blockchain/mod.rs:75-88 | returns the path to the tip, from genesis, each block the parent of the next, of length height + 1; every lookup succeeds |
| Chains.HeightBelowCount | src/blockchain/mod.rs:59 | a height is less than the number of stored blocks |
| ChainState.InsertKeepsWork | src/network/worker.rs:195-209 | inserting a block with work at its parent's difficulty keeps the genesis difficulty and the work of all |
| ChainState.WorkIsNumeric | src/network/worker.rs:178 | the proof of work is done iff the hash of the header, as a number, does not exceed the difficulty in it |
| ChainState.CacheEqualsReplay | src/network/worker.rs:63-122 | the cached state of a block is the fold of `State::update` over all transactions on its path, all valid where they stand |
| ChainState.ChainLedgerHolds | src/network/worker.rs:73-119 | on every chain nothing of value is spent twice and the state holds 100 less the fees on the path |
| ChainState.ChainSpendingIsAuthorised | src/network/worker.rs:73-116 | between an ancestor's state and a descendant's an entry is unchanged or was spent by a transaction its owner signed |
| ChainState.BlockSpendingIsAuthorised | src/network/worker.rs:73-116 | the same for one accepted block without any premise on hashes |
| ChainState.InsertExtends | src/blockchain/mod.rs:58-67 | when hash determines body an insertion changes nothing stored |
| Reception.Worker.constructor | src/main.rs:51-97 | a worker starts with genesis, its state, and no orphans |
| Reception.Worker.CheckTxState | src/network/worker.rs:63-122 | stores the replayed state under the block's hash iff the transactions are valid, and otherwise changes nothing |
| Reception.Worker.TryAdopt | src/network/worker.rs:195-211 | adopts iff the difficulty is the parent's and the transactions are valid; stores the block one above its parent and its replay, or changes nothing |
| Reception.Worker.Unorphan | src/network/worker.rs:239-263 | an orphan leaves the buffer and is tried |
| Reception.Worker.Drain | src/network/worker.rs:228-274 | the nested loops terminate and leave no orphan whose parent is stored; exactly the listed hashes were added; node and list are those of a recursive function |
| Reception.Worker.HandleBlock | src/network/worker.rs:175-282 | a block without work or already stored changes nothing; one whose parent is not stored is buffered and that parent asked for; otherwise it is stored and listed, with the orphans it frees behind it, if it is admissible, and changes nothing if not |
| Reception.Worker.HandleBlocks | src/network/worker.rs:171-375 | between messages no orphan's parent is stored and every orphan has its work done; the broadcast hashes are exactly the new keys; the requests are, in order, one parent for each block that was new, with its work done and its parent missing, and nothing else; node and list are those of `ReceivedAll` |
| Reception.AdoptKeepsBase | src/network/worker.rs:208-209 | adoption keeps the tree, the replay of stored bodies and the work of all, for a second body too if nothing was built on the first |
| Reception.AdoptExtendsQueue | src/network/worker.rs:253-260 | un-orphaning keeps the worklist ordered by height and twins of stored blocks childless |
| Reception.NoTwinOfHead | src/network/worker.rs:238-268 | no buffered body shares its header with the hash being drained |
| Reception.HandledStays | src/network/worker.rs:178-282 | a block stored, buffered or refused stays so when hash determines body |
| Reception.WorkerCacheReplays | src/network/worker.rs:63-122 | between messages the cache replays the stored bodies, with no premise on bodies |
| Arrival.StoredIsAccepted | src/network/worker.rs:175-283 | every stored block ends a path of delivered blocks, each acceptable after the one before, whose state is the cached one |
| Arrival.AcceptedIsStored | src/network/worker.rs:175-283 | every block of every such path is stored, at its height, under its state |
| Arrival.ChainIsAcceptable | src/network/worker.rs:175-283 | the keys of the chain are exactly the acceptable hashes, defined on the set of delivered blocks alone |
| Arrival.OrphansAreExact | src/network/worker.rs:276-282 | the orphans are exactly the delivered blocks with work whose parent is not acceptable |
| Arrival.OrderDoesNotMatter | src/network/worker.rs:171-375 | workers that were sent the same blocks in any order and grouping agree on blocks, heights, states, orphans and tip height |
| Arrival.WorkerLoop | src/network/worker.rs:124-375 | after any sequence of messages the chain's keys are exactly the acceptable hashes |
| Arrival.AnyOrder | src/network/worker.rs:124-375 | two new workers whose messages carry the same blocks, in any order and grouping, end with equal blocks, heights, states, orphans and tip height |
| Interleaving.StepIsSafe | src/network/worker.rs:178-263 | every atomic step of every thread keeps the safety invariant and loses nothing |
| Interleaving.AlwaysSafe | src/network/worker.rs:178-263 | in every reachable state the chain is a tree, all work is done at the genesis difficulty, and every stored block has a cached state |
| Interleaving.NothingPanics | src/network/worker.rs:65-71 | no lookup of validation, insertion or a tip-state read ever misses |
| Interleaving.NothingIsLost | src/blockchain/mod.rs:58-67 | keys never disappear and heights never change |
| Interleaving.CheckingStaysCapped | src/network/worker.rs:73-116 | from a capped state: if the first k of a sound list pass, the state they leave is capped, and if the inputs of the next are distinct each of their partial sums is at most 100, whether it passes or fails |
| Interleaving.SupplyIsCapped | src/miner/worker.rs:47-106 | in every interleaving, if the blocks in play are sound, every stored state and every state about to be stored holds at most 100 |
| Interleaving.CheckingNeverOverflows | src/network/worker.rs:73-116 | in every reachable state, for every block in play with a cached parent, accepted or not, every state that checking passes through holds at most 100, and every partial sum over distinct inputs is at most 100 |
| Interleaving.FaithfulWrite | src/network/worker.rs:119 | under `Confluent` a write to the cache repeats what is there or adds a key |
| Interleaving.ReplayedInsert | src/network/worker.rs:208-209 | inserting a block whose state is cached keeps the replay of stored bodies, over an old body too |
| Interleaving.CacheAlwaysReplays | src/network/worker.rs:63-122 | under `Confluent` the cache replays the stored bodies in every reachable state of every schedule |
| Interleaving.BodiesMakeConfluent | src/types/block.rs:37-42 | `Confluent` holds when hash determines body |
| Interleaving.NothingIsReplaced | src/blockchain/mod.rs:62 | when hash determines body no stored block or state is ever replaced |
| Interleaving.LedgerHoldsAlways | src/network/worker.rs:73-119 | under `Confluent` the ledger results hold of every stored block in every reachable state |
| Confluence.PathCanBeFollowed | src/network/worker.rs:171-282 | every acceptable path is followed, block by block, by some run of the node, to its end as the tip under its state |
| Confluence.ConfluentIffNoFork | src/network/worker.rs:63-122 | `Confluent` fails iff some acceptable path is extended to two states by two bodies under one header |
| Confluence.ForkBreaksReplay | src/network/worker.rs:178-209 | from such a fork, a run of two network workers from the start that ends with one body inserted and the state of the other cached |
| Confluence.GenesisTwins | src/network/worker.rs:178-209 | the case right above genesis: of two children under one header, one empty and one paying, the empty one ends stored with the state after the payment |
| Confluence.ReplaysIffConfluent | src/network/worker.rs:63-209 | with two or more network workers, the cache replays the stored bodies in every reachable state of every run iff `Confluent` |
| OneWorker.AnchoredOnce | src/network/worker.rs:63-122 | if forks are harmless, acceptable paths that agree with the cache right above genesis and end in one hash lead to one state |
| OneWorker.AlwaysOne | src/network/worker.rs:178-263 | then every reachable state of a node with one network worker keeps the replay, covers what the worker is checking, and backs every cached hash by a stored or an about to be inserted block |
| OneWorker.HighForkBreaks | src/network/worker.rs:228-264 | from a fork above a later block, a run of one worker that adopts one twin from its orphans and stores the state of the other under it |
| OneWorker.LowForkBreaks | src/miner/worker.rs:47-106 | from a fork above genesis with one body mined, a run in which the committer stores its state under the other body |
| OneWorker.ReplaysIffHarmless | src/miner/worker.rs:47-168 | with one network worker, and a miner that builds only blocks of a given set, the cache replays the stored bodies in every reachable state of every run iff forks occur only right above genesis and outside that set |
| Interleaving.TipIsAlwaysFirstHighest | src/blockchain/mod.rs:58-72 | under any schedule the tip has maximum height, and when it became the tip everything stored was strictly lower |
| Undisturbed.AloneTries | src/network/worker.rs:195-211 | undisturbed, the atomic steps from the difficulty check on adopt or drop a block as the sequential worker does |
| Undisturbed.AloneHandlesBlock | src/network/worker.rs:175-282 | undisturbed, the atomic steps skip, buffer or try a block as the sequential worker does |
| Undisturbed.AloneHandlesOrphan | src/network/worker.rs:238-264 | undisturbed, the atomic steps remove and try an orphan as the sequential worker does |
| Undisturbed.AloneDrains | src/network/worker.rs:228-274 | undisturbed, the atomic steps of the worklist end, with the node and list of the sequential worklist loops |
| Undisturbed.AloneIsSequential | src/network/worker.rs:171-283 | and the steps for a whole message end with the node and list of `ReceivedAll`, as `HandleBlocks` does |
| Undisturbed.MessageAlone | src/network/worker.rs:124-283 | from any reachable state of the node: a message handed to a waiting worker that is then alone changes chain, cache, its orphans and its list just so, and nothing else |
| Undisturbed.MinerAlone | src/miner/mod.rs:162-220 | the miner's two steps build a block on the tip from the nonce, time, root and body it drew, and pass it on iff its hash does not exceed the difficulty |
| Undisturbed.CommitterAlone | src/miner/worker.rs:47-168 | the committer's steps take the oldest found block and do with it what `Commit` does |
| Undisturbed.GeneratorAlone | src/generator/tx_generator.rs:213-220 | the generator's two steps read the state cached for the tip |
| Undisturbed.GeneratorReadsReplay | src/generator/tx_generator.rs:213-220 | under `Confluent` and any schedule, what it read is still the cached state at any later time, and is the replay of the path to that tip |
| Walks.RunsGiveGrowingViews | src/miner/mod.rs:237-256 | the chains a walk sees at its successive locks, in any run, each extend the first; its blocks have cached states, which a later read finds unchanged |
| Walks.TxExistCheck | src/miner/mod.rs:236-258 | true iff no block on the path of the tip first read contains the transaction |
| Walks.AbsentMeans | src/miner/mod.rs:236-258 | absence is to differ from the hash of every transaction of every block on the path |
| Walks.LongestChainTxs | src/api/mod.rs:157-201 | for each block on that path, genesis first, the hashes of its transactions in order |
| Walks.StateAtHeight | src/api/mod.rs:241-265 | the state at height min(index, tip height) of that path |
| Mining.Miner.FillBatch | src/miner/mod.rs:176-187 | a new batch, the first min(n, 50) transactions in iteration order, only when none is waiting |
| Mining.Miner.MineOnce | src/miner/mod.rs:173-220 | every block tried has the given parent, nonce and timestamp, the genesis difficulty, at most 50 transactions and the Merkle root of its body; it is found iff its hash does not exceed the difficulty; a batch is kept until found, then leaves the mempool |
| Mining.Committer.Commit | src/miner/worker.rs:108-168 | a found block is cached, inserted and announced under its header's hash iff its transactions are valid on its parent's state |
| Mining.FoundIsAdmissible | src/miner/worker.rs:164-165 | a found block needs no difficulty check: every stored parent has the difficulty it was mined at |
| Mining.CommitLeavesOrphans | src/miner/worker.rs:164-168 | committing keeps what always holds; since it looks at no orphan buffer, the buffer stays drained iff no orphan waits for the block |
| Generating.SplitIsExact | src/types/transaction.rs:70-104 | the outputs add up to the balance without underflow; three from a balance of 3 up, ascending and equal up to one |
| Generating.PaymentPasses | src/generator/tx_generator.rs:224-235 | the validator accepts the generator's transaction wherever its coin is unspent |
| Generating.AppendPassing | src/network/worker.rs:73-116 | a valid list extended by a transaction that passes at its end is valid |
| Generating.GetTxBalance | src/generator/tx_generator.rs:136-160 | the first coin of the address in whatever order the map is read, or none if there is none |
| Generating.GeneLoop.constructor | src/generator/tx_generator.rs:164-165 | the local state starts as the tip's state, the address is that of the key, and key, signer and peers are the given ones |
| Generating.GeneLoop.Refresh | src/generator/tx_generator.rs:213-220 | a new tip replaces the local state, the old tip keeps it |
| Generating.GeneLoop.Generate | src/generator/tx_generator.rs:222-258 | spends the first own coin met, whole, unless it is worthless; the signed transaction itself is in the mempool under its hash afterwards; the local state is the snapshot with everything generated applied in order, and the validator accepts exactly that |

## Left out

- Chains.Blockchain.Insert: heights are unbounded here; `HeightBelowCount` shows the 32-bit counter of the code is exact below 2^32 blocks.
- Ledger.CheckTxs: models the wrapping sums of a release build; a debug build panics on the sums that wrap.
- Merkle.Proof: asks for a tree of at least one datum, since the code indexes level 0 and panics on an empty tree.
- Reception.Worker.HandleBlocks: one worker alone; each thread of the code has its own orphan buffer, so completeness across threads is not claimed.
- Interleaving.NothingPanics: the mempool lock is not a step, since no lookup in it is unwrapped on these paths without a preceding check.
- Mining.Miner.MineOnce: other threads do not touch the mempool between the removals of one found batch.
- OneWorker.ReplaysIffHarmless: a node started with no network worker at all is not treated; it receives nothing.
- Peers, framing, broadcast and channels are left out; messages are inputs, and outgoing hashes and requests are results.
- HTTP, JSON and control endpoints are left out except the two ancestor walks.
- Control signals, sleeping, clocks and random nonces are left out; nonce, timestamp and map iteration order are arbitrary inputs.
- Ping, `NewBlockHashes`, `GetBlocks`, `GetTransactions`, `Transactions` and `NewTransactionHashes` are left out: one branch each.
- Liveness of gossip and mining is left out.
- Key tables, formatting, random test data and command-line parsing are left out.
