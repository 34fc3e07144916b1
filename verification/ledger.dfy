/** Ledger states and the validation of a block's transactions: `State` of
    src/types/transaction.rs and the loop shared by the two copies of `check_tx_state`
    (src/network/worker.rs and src/miner/worker.rs). */
module Ledger {
  import opened Hash
  import opened Types

  // ---- Replay: what one transaction, and a list of them, does to a state -------------------

  /** The outpoints listed by the first n inputs. */
  function Spent(ins: seq<Input>, n: nat): set<OutPoint>
    requires n <= |ins|
  {
    set k | 0 <= k < n :: Key(ins[k])
  }

  /** Outputs 0..n written in order; the position is cast to one byte. */
  function Create(s: Utxo, h: H256, outs: seq<Output>, n: nat): Utxo
    requires n <= |outs|
  {
    if n == 0 then s
    else Create(s, h, outs, n - 1)[OutPoint(h, (n - 1) % 256) := Entry(outs[n - 1].value, outs[n - 1].recipient)]
  }

  /** `State::update`. */
  function Updated(c: Crypto, s: Utxo, st: SignedTransaction): Utxo {
    var tx := st.transaction;
    Create(s - Spent(tx.input, |tx.input|), TxHash(c, st), tx.output, |tx.output|)
  }

  /** The state after the first k of `txs`. */
  function ReplayTo(c: Crypto, s: Utxo, txs: seq<SignedTransaction>, k: nat): Utxo
    requires k <= |txs|
  {
    if k == 0 then s else Updated(c, ReplayTo(c, s, txs, k - 1), txs[k - 1])
  }

  function Replay(c: Crypto, s: Utxo, txs: seq<SignedTransaction>): Utxo {
    ReplayTo(c, s, txs, |txs|)
  }

  /** The outpoint and value of the initial coin offering. */
  function IcoPoint(): OutPoint {
    OutPoint(ZeroHash(), 0)
  }

  function Initial(owner: Address): Utxo {
    map[IcoPoint() := Entry(100, owner)]
  }

  /** The source's `State`, updated in place. */
  class State {
    var states: Utxo

    constructor (c: Crypto, publicKey: Bytes)
      ensures states == Initial(AddressOf(c, publicKey))
      ensures states == map[OutPoint(H256(seq(32, _ => 0)), 0) := Entry(100, c.address(publicKey))]
    {
      states := map[OutPoint(ZeroHash(), 0) := Entry(100, AddressOf(c, publicKey))];
    }

    method Update(c: Crypto, st: SignedTransaction)
      modifies this
      ensures states == Updated(c, old(states), st)
    {
      var input, output := st.transaction.input, st.transaction.output;
      for i := 0 to |input|
        invariant states == old(states) - Spent(input, i)
      {
        var toFind := Key(input[i]);
        if toFind in states {
          states := states - {toFind};
        }
        assert Spent(input, i + 1) == Spent(input, i) + {toFind};
      }
      for o := 0 to |output|
        invariant states == Create(old(states) - Spent(input, |input|), TxHash(c, st), output, o)
      {
        states := states[OutPoint(TxHash(c, st), o % 256) := Entry(output[o].value, output[o].recipient)];
      }
    }
  }

  // ---- Validation --------------------------------------------------------------------------

  function ValueAt(s: Utxo, o: OutPoint): nat {
    if o in s then s[o].value else 0
  }

  /** Exact value listed by the first n inputs, repetitions included. */
  function SumInputs(s: Utxo, ins: seq<Input>, n: nat): nat
    requires n <= |ins|
  {
    if n == 0 then 0 else SumInputs(s, ins, n - 1) + ValueAt(s, Key(ins[n - 1]))
  }

  /** Exact value of the first n outputs. */
  function SumOutputs(outs: seq<Output>, n: nat): nat
    requires n <= |outs|
  {
    if n == 0 then 0 else SumOutputs(outs, n - 1) + outs[n - 1].value
  }

  function InputValue(s: Utxo, st: SignedTransaction): nat {
    SumInputs(s, st.transaction.input, |st.transaction.input|)
  }

  function OutputValue(st: SignedTransaction): nat {
    SumOutputs(st.transaction.output, |st.transaction.output|)
  }

  predicate HeldBy(s: Utxo, o: OutPoint, owner: Address) {
    o in s && s[o].owner == owner
  }

  /** One transaction passes: signed, every input held by the signer, and the 32-bit sum of
      inputs not below the 32-bit sum of outputs. */
  predicate Passes(c: Crypto, s: Utxo, st: SignedTransaction) {
    && SignatureOk(c, st)
    && (forall i :: 0 <= i < |st.transaction.input| ==>
          HeldBy(s, Key(st.transaction.input[i]), AddressOf(c, st.publicKey)))
    && InputValue(s, st) % U32_LIMIT >= OutputValue(st) % U32_LIMIT
  }

  predicate PassesAt(c: Crypto, s: Utxo, txs: seq<SignedTransaction>, k: nat)
    requires k < |txs|
  {
    Passes(c, ReplayTo(c, s, txs, k), txs[k])
  }

  /** Every transaction passes on the state its predecessors leave. */
  ghost predicate Valid(c: Crypto, s: Utxo, txs: seq<SignedTransaction>) {
    forall k {:trigger PassesAt(c, s, txs, k)} :: 0 <= k < |txs| ==> PassesAt(c, s, txs, k)
  }

  /** 32-bit accumulation gives the exact sum modulo 2^32. */
  lemma {:induction false} WrapStep(a: nat, v: nat)
    ensures (a % U32_LIMIT + v) % U32_LIMIT == (a + v) % U32_LIMIT
  {
  }

  /** The input loop of `check_tx_state`: wrapped sum, or failure at the first input that is
      missing or held by somebody else. */
  method SumOwnedInputs(s: Utxo, ins: seq<Input>, owner: Address) returns (ok: bool, sum: u32)
    ensures ok <==> forall i :: 0 <= i < |ins| ==> HeldBy(s, Key(ins[i]), owner)
    ensures ok <==> forall i :: 0 <= i < |ins| ==>
      var o := OutPoint(ins[i].prevTrans, ins[i].index); o in s && s[o].owner == owner
    ensures ok ==> sum == SumInputs(s, ins, |ins|) % U32_LIMIT
  {
    sum := 0;
    for i := 0 to |ins|
      invariant forall j :: 0 <= j < i ==> HeldBy(s, Key(ins[j]), owner)
      invariant sum == SumInputs(s, ins, i) % U32_LIMIT
    {
      var key := Key(ins[i]);
      if key !in s || s[key].owner != owner {
        assert !HeldBy(s, Key(ins[i]), owner);
        return false, 0;
      }
      WrapStep(SumInputs(s, ins, i), s[key].value);
      sum := (sum + s[key].value) % U32_LIMIT;
    }
    ok := true;
  }

  method WrappedOutputs(outs: seq<Output>) returns (sum: u32)
    ensures sum == SumOutputs(outs, |outs|) % U32_LIMIT
  {
    sum := 0;
    for i := 0 to |outs|
      invariant sum == SumOutputs(outs, i) % U32_LIMIT
    {
      WrapStep(SumOutputs(outs, i), outs[i].value);
      sum := (sum + outs[i].value) % U32_LIMIT;
    }
  }

  /** What acceptance comes down to: each transaction carries a signature of its key that verifies, its
      inputs are there and held by the address of that key, and they cover its outputs in 32 bits. */
  ghost predicate AcceptableAt(c: Crypto, s: Utxo, txs: seq<SignedTransaction>, k: nat)
    requires k < |txs|
  {
    var st, t := txs[k], ReplayTo(c, s, txs, k);
    && c.verifies(st.transaction, st.publicKey, st.signature)
    && (forall i :: 0 <= i < |st.transaction.input| ==>
          var o := OutPoint(st.transaction.input[i].prevTrans, st.transaction.input[i].index);
          o in t && t[o].owner == c.address(st.publicKey))
    && SumInputs(t, st.transaction.input, |st.transaction.input|) % 0x1_0000_0000
         >= SumOutputs(st.transaction.output, |st.transaction.output|) % 0x1_0000_0000
  }

  /** The body of `check_tx_state` between its two lock scopes: validates and applies `txs` to a
      clone of the parent's state. Accepts exactly the valid lists, and what it computes is
      the replay by `State::update`. */
  method CheckTxs(c: Crypto, parentState: Utxo, txs: seq<SignedTransaction>)
    returns (ok: bool, state: Utxo)
    ensures ok <==> Valid(c, parentState, txs)
    ensures ok <==> forall k {:trigger AcceptableAt(c, parentState, txs, k)} ::
      0 <= k < |txs| ==> AcceptableAt(c, parentState, txs, k)
    ensures ok ==> forall k :: 0 <= k < |txs| ==>
      c.verifies(txs[k].transaction, txs[k].publicKey, txs[k].signature)
    ensures ok ==> state == Replay(c, parentState, txs)
  {
    state := parentState;
    for k := 0 to |txs|
      invariant forall j :: 0 <= j < k ==> PassesAt(c, parentState, txs, j)
      invariant forall j :: 0 <= j < k ==> AcceptableAt(c, parentState, txs, j)
      invariant forall j :: 0 <= j < k ==> c.verifies(txs[j].transaction, txs[j].publicKey, txs[j].signature)
      invariant state == ReplayTo(c, parentState, txs, k)
    {
      var st := txs[k];
      AcceptableIfPasses(c, parentState, txs, k);
      if !SignatureOk(c, st) {
        assert !PassesAt(c, parentState, txs, k);
        return false, state;
      }
      var owned, sumInput := SumOwnedInputs(state, st.transaction.input, AddressOf(c, st.publicKey));
      if !owned {
        assert !PassesAt(c, parentState, txs, k);
        return false, state;
      }
      var sumOutput := WrappedOutputs(st.transaction.output);
      if sumInput < sumOutput {
        assert !PassesAt(c, parentState, txs, k);
        return false, state;
      }
      assert PassesAt(c, parentState, txs, k);
      state := Apply(c, state, st);
    }
    ok := true;
  }

  lemma {:induction false} AcceptableIfPasses(c: Crypto, s: Utxo, txs: seq<SignedTransaction>, k: nat)
    requires k < |txs|
    ensures PassesAt(c, s, txs, k) <==> AcceptableAt(c, s, txs, k)
  {
  }

  /** The removals and insertions at the end of `check_tx_state`. */
  method Apply(c: Crypto, s: Utxo, st: SignedTransaction) returns (state: Utxo)
    ensures state == Updated(c, s, st)
  {
    var ins, outs := st.transaction.input, st.transaction.output;
    state := s;
    for i := 0 to |ins|
      invariant state == s - Spent(ins, i)
    {
      state := state - {Key(ins[i])};
      assert Spent(ins, i + 1) == Spent(ins, i) + {Key(ins[i])};
    }
    for index := 0 to |outs|
      invariant state == Create(s - Spent(ins, |ins|), TxHash(c, st), outs, index)
    {
      state := state[OutPoint(TxHash(c, st), index % 256) := Entry(outs[index].value, outs[index].recipient)];
    }
  }

  // ---- Replay of a concatenation -----------------------------------------------------------

  lemma {:induction false} ReplayPrefix(c: Crypto, s: Utxo, a: seq<SignedTransaction>,
        b: seq<SignedTransaction>, k: nat)
    requires k <= |a|
    ensures ReplayTo(c, s, a + b, k) == ReplayTo(c, s, a, k)
  {
    if k > 0 {
      ReplayPrefix(c, s, a, b, k - 1);
    }
  }

  lemma {:induction false} ReplaySuffix(c: Crypto, s: Utxo, a: seq<SignedTransaction>,
        b: seq<SignedTransaction>, k: nat)
    requires k <= |b|
    ensures ReplayTo(c, s, a + b, |a| + k) == ReplayTo(c, Replay(c, s, a), b, k)
  {
    if k == 0 {
      ReplayPrefix(c, s, a, b, |a|);
    } else {
      ReplaySuffix(c, s, a, b, k - 1);
    }
  }

  /** Validating two lists one after the other is validating their concatenation. */
  lemma {:induction false} ReplayConcat(c: Crypto, s: Utxo, a: seq<SignedTransaction>, b: seq<SignedTransaction>)
    ensures Replay(c, s, a + b) == Replay(c, Replay(c, s, a), b)
    ensures Valid(c, s, a + b) <==> Valid(c, s, a) && Valid(c, Replay(c, s, a), b)
  {
    var t := Replay(c, s, a);
    ReplaySuffix(c, s, a, b, |b|);
    forall k | 0 <= k < |a|
      ensures PassesAt(c, s, a + b, k) == PassesAt(c, s, a, k)
    {
      ReplayPrefix(c, s, a, b, k);
    }
    forall k | 0 <= k < |b|
      ensures PassesAt(c, s, a + b, |a| + k) == PassesAt(c, t, b, k)
    {
      ReplaySuffix(c, s, a, b, k);
    }
    if Valid(c, s, a) && Valid(c, t, b) {
      forall k | 0 <= k < |a + b|
        ensures PassesAt(c, s, a + b, k)
      {
        assert k >= |a| ==> PassesAt(c, s, a + b, |a| + (k - |a|)) == PassesAt(c, t, b, k - |a|);
      }
    }
  }

  // ---- What an update writes ---------------------------------------------------------------

  /** The entry that the first n outputs leave at byte position `idx`, if they reach it. */
  function OutputAt(outs: seq<Output>, n: nat, idx: u8): Option<Entry>
    requires n <= |outs|
  {
    if n == 0 then None
    else if (n - 1) % 256 == idx then Some(Entry(outs[n - 1].value, outs[n - 1].recipient))
    else OutputAt(outs, n - 1, idx)
  }

  /** Looking up after writing outputs. */
  lemma {:induction false} CreateLookup(s: Utxo, h: H256, outs: seq<Output>, n: nat, o: OutPoint)
    requires n <= |outs|
    ensures var t, w := Create(s, h, outs, n), OutputAt(outs, n, o.index);
      if o.hash == h && w.Some? then o in t && t[o] == w.value
      else (o in t <==> o in s) && (o in s ==> t[o] == s[o])
  {
    if n > 0 {
      CreateLookup(s, h, outs, n - 1, o);
    }
  }

  /** The transaction `st` writes entry `e` at `o`. */
  predicate Writes(c: Crypto, st: SignedTransaction, o: OutPoint, e: Entry) {
    && TxHash(c, st) == o.hash
    && OutputAt(st.transaction.output, |st.transaction.output|, o.index) == Some(e)
  }

  predicate Lists(st: SignedTransaction, o: OutPoint) {
    o in Spent(st.transaction.input, |st.transaction.input|)
  }

  /** An entry after an update was written by it, or was there before and not listed as an input. */
  lemma {:induction false} UpdatedLookup(c: Crypto, s: Utxo, st: SignedTransaction, o: OutPoint)
    ensures var t := Updated(c, s, st);
      && (o in t ==> Writes(c, st, o, t[o]) || (o in s && t[o] == s[o] && !Lists(st, o)))
      && (o in s && !Lists(st, o) ==> o in t && (t[o] == s[o] || Writes(c, st, o, t[o])))
  {
    var tx := st.transaction;
    CreateLookup(s - Spent(tx.input, |tx.input|), TxHash(c, st), tx.output, |tx.output|, o);
  }

  // ---- The effect of an update, entry by entry ---------------------------------------------

  lemma {:induction false} LastWriter(outs: seq<Output>, n: nat, idx: u8)
    requires n <= |outs|
    ensures OutputAt(outs, n, idx).None? <==> forall k :: 0 <= k < n ==> k % 256 != idx
    ensures forall k :: 0 <= k < n && k % 256 == idx && (forall m :: k < m < n ==> m % 256 != idx) ==>
      OutputAt(outs, n, idx) == Some(Entry(outs[k].value, outs[k].recipient))
  {
    if n > 0 {
      LastWriter(outs, n - 1, idx);
    }
  }

  /** Some output lands at position `idx`, the position being cast to one byte. */
  predicate Reaches(outs: seq<Output>, idx: u8) {
    exists k :: 0 <= k < |outs| && k % 256 == idx
  }

  /** The outpoint of hash `h` and position `idx` is among the inputs. */
  predicate Consumes(ins: seq<Input>, h: H256, idx: u8) {
    exists i :: 0 <= i < |ins| && ins[i].prevTrans == h && ins[i].index == idx
  }

  /** Every entry after an update: at the transaction's own hash the last output cast to a position
      is there; elsewhere an entry is there, unchanged, unless it was consumed. */
  lemma {:induction false} UpdateEffect(c: Crypto, s: Utxo, st: SignedTransaction, h: H256, idx: u8)
    ensures var t, o, outs := Updated(c, s, st), OutPoint(h, idx), st.transaction.output;
      if h == c.signedHash(st) && Reaches(outs, idx) then
        o in t && forall k :: 0 <= k < |outs| && k % 256 == idx && (forall m :: k < m < |outs| ==> m % 256 != idx) ==>
          t[o] == Entry(outs[k].value, outs[k].recipient)
      else
        && (o in t <==> o in s && !Consumes(st.transaction.input, h, idx))
        && (o in t ==> t[o] == s[o])
  {
    var ins, outs, o := st.transaction.input, st.transaction.output, OutPoint(h, idx);
    CreateLookup(s - Spent(ins, |ins|), TxHash(c, st), outs, |outs|, o);
    LastWriter(outs, |outs|, idx);
    SpentIsConsumed(ins, h, idx);
  }

  lemma {:induction false} SpentIsConsumed(ins: seq<Input>, h: H256, idx: u8)
    ensures OutPoint(h, idx) in Spent(ins, |ins|) <==> Consumes(ins, h, idx)
  {
    if Consumes(ins, h, idx) {
      var i :| 0 <= i < |ins| && ins[i].prevTrans == h && ins[i].index == idx;
      assert Key(ins[i]) == OutPoint(h, idx);
    }
  }

  /** The initial state has one entry, 100 for its owner, at the zero hash and position 0. */
  lemma {:induction false} InitialCoin(owner: Address, o: OutPoint)
    ensures o in Initial(owner) <==> o.index == 0 && forall i :: 0 <= i < 32 ==> o.hash.bytes[i] == 0
    ensures o in Initial(owner) ==> Initial(owner)[o] == Entry(100, owner)
  {
    if o.index == 0 && forall i :: 0 <= i < 32 ==> o.hash.bytes[i] == 0 {
      assert o.hash.bytes == ZeroHash().bytes;
    }
  }
}
