/** The transaction generator (src/generator/tx_generator.rs) and the outputs it makes
    (src/types/transaction.rs): its local state runs ahead of the chain exactly as the
    validator would take it. */
module Generating {
  import opened Hash
  import opened Types
  import opened Ledger
  import opened ChainState
  import opened Mining

  /** `Output::pass_check`: a three-way split, or one output when a share would be zero. */
  function PassCheck(balance: u32, peers: (Address, Address)): seq<Output> {
    var v1 := balance / 3;
    var v2 := (balance - v1) / 2;
    var v3 := balance - v1 - v2;
    if v1 == 0 || v2 == 0 || v3 == 0 then [Output(peers.0, balance)]
    else [Output(peers.0, v1), Output(peers.1, v2), Output(peers.1, v3)]
  }

  /** The shares add up to the balance; there are three exactly from a balance of 3 up, and then they
      differ by at most one and ascend, the least going to the first peer and the others to the second. */
  lemma {:induction false} SplitIsExact(balance: u32, peers: (Address, Address))
    ensures var outs := PassCheck(balance, peers);
      && SumOutputs(outs, |outs|) == balance
      && |outs| == (if balance >= 3 then 3 else 1)
      && outs[0].recipient == peers.0
      && (forall i :: 1 <= i < |outs| ==> outs[i].recipient == peers.1)
      && (forall i :: 1 <= i < |outs| ==> outs[0].value <= outs[i].value <= outs[0].value + 1)
      && (|outs| == 3 ==> outs[1].value <= outs[2].value)
      && (|outs| == 3 ==> 3 * outs[0].value <= balance < 3 * outs[0].value + 3)
  {
    var outs := PassCheck(balance, peers);
    assert SumOutputs(outs, 1) == outs[0].value;
    if |outs| == 3 {
      assert SumOutputs(outs, 2) == outs[0].value + outs[1].value;
    }
  }

  /** The transaction the generator makes from one coin: all of it goes to the peers. */
  function Payment(key: Bytes, sign: Transaction -> Bytes, o: OutPoint, balance: u32, peers: (Address, Address))
    : SignedTransaction
  {
    var tx := Transaction([Input(o.hash, o.index)], PassCheck(balance, peers));
    SignedTransaction(tx, sign(tx), key)
  }

  ghost predicate Signs(c: Crypto, key: Bytes, sign: Transaction -> Bytes) {
    forall tx :: c.verifies(tx, key, sign(tx))
  }

  /** The validator accepts it on every state where the coin is there and is the generator's. */
  lemma {:induction false} PaymentPasses(c: Crypto, s: Utxo, key: Bytes, sign: Transaction -> Bytes,
        o: OutPoint, peers: (Address, Address))
    requires Signs(c, key, sign) && HeldBy(s, o, AddressOf(c, key))
    ensures Passes(c, s, Payment(key, sign, o, s[o].value, peers))
  {
    var st := Payment(key, sign, o, s[o].value, peers);
    SplitIsExact(s[o].value, peers);
    assert SumInputs(s, st.transaction.input, 1) == SumInputs(s, st.transaction.input, 0) + s[o].value;
  }

  /** Appending a transaction that passes where the list ends. */
  lemma {:induction false} AppendPassing(c: Crypto, s: Utxo, txs: seq<SignedTransaction>, st: SignedTransaction)
    requires Valid(c, s, txs) && Passes(c, Replay(c, s, txs), st)
    ensures Valid(c, s, txs + [st]) && Replay(c, s, txs + [st]) == Updated(c, Replay(c, s, txs), st)
  {
    var t := Replay(c, s, txs);
    assert ReplayTo(c, t, [st], 0) == t;
    assert ReplayTo(c, t, [st], 1) == Updated(c, t, st);
    assert PassesAt(c, t, [st], 0);
    ReplayConcat(c, s, txs, [st]);
  }

  /** `order` is some iteration order of the keys of `s`. */
  predicate Enumerates(order: seq<OutPoint>, s: Utxo) {
    && (forall i :: 0 <= i < |order| ==> order[i] in s)
    && (forall o :: o in s ==> o in order)
  }

  /** The j-th coin in iteration order is the owner's, and no earlier one is. */
  predicate FirstOwned(s: Utxo, order: seq<OutPoint>, owner: Address, j: nat) {
    && j < |order| && order[j] in s && s[order[j]].owner == owner
    && forall i :: 0 <= i < j ==> order[i] in s && s[order[i]].owner != owner
  }

  /** `get_tx_balance`: the first coin of `owner` in iteration order, alone. */
  method GetTxBalance(s: Utxo, order: seq<OutPoint>, owner: Address)
    returns (tx: seq<Input>, balance: u32, ghost at: nat)
    requires Enumerates(order, s)
    ensures |tx| <= 1
    ensures tx == [] ==> balance == 0 && forall o :: o in s ==> s[o].owner != owner
    ensures tx != [] ==> HeldBy(s, Key(tx[0]), owner) && balance == s[Key(tx[0])].value
    ensures tx != [] ==> FirstOwned(s, order, owner, at)
    ensures tx != [] ==> tx == [Input(order[at].hash, order[at].index)] && balance == s[order[at]].value
  {
    balance, tx, at := 0, [], 0;
    for i := 0 to |order|
      invariant tx == [] && balance == 0
      invariant forall j :: 0 <= j < i ==> s[order[j]].owner != owner
    {
      if s[order[i]].owner == owner {
        balance := balance + s[order[i]].value;
        tx := tx + [Input(order[i].hash, order[i].index)];
        at := i;
        break;
      }
    }
  }

  predicate EmptyCoin(s: Utxo, o: OutPoint, owner: Address) {
    HeldBy(s, o, owner) && s[o].value == 0
  }

  /** Some coin of `owner` is worth nothing, which stops the generator when it comes first. */
  ghost predicate SomeEmptyCoin(s: Utxo, owner: Address) {
    exists o :: EmptyCoin(s, o, owner)
  }

  class GeneLoop {
    const c: Crypto
    const publicKey: Bytes
    const sign: Transaction -> Bytes
    const addr: Address
    const peerAddrs: (Address, Address)
    const mempool: Mempool
    var state: Utxo
    var prevTip: H256
    ghost var snapshot: Utxo
    ghost var generated: seq<SignedTransaction>

    /** The local state is the tip's state at the last refresh with everything generated since applied
        in order, and the validator accepts all of that on it. */
    ghost predicate Agrees()
      reads this
    {
      && addr == AddressOf(c, publicKey) && Signs(c, publicKey, sign)
      && Valid(c, snapshot, generated)
      && state == Replay(c, snapshot, generated)
    }

    constructor (c: Crypto, publicKey: Bytes, sign: Transaction -> Bytes, peers: (Address, Address),
                 mempool: Mempool, tip: H256, blockState: Cache)
      requires tip in blockState && Signs(c, publicKey, sign)
      ensures Agrees() && snapshot == blockState[tip] && prevTip == tip && generated == []
      ensures this.c == c && this.publicKey == publicKey && this.sign == sign && this.mempool == mempool
      ensures addr == c.address(publicKey) && peerAddrs == peers && state == blockState[tip]
    {
      this.c, this.publicKey, this.sign, this.peerAddrs, this.mempool := c, publicKey, sign, peers, mempool;
      this.addr := AddressOf(c, publicKey);
      state, prevTip := blockState[tip], tip;
      snapshot, generated := blockState[tip], [];
    }

    /** A new tip replaces the local state. */
    method Refresh(tip: H256, blockState: Cache)
      requires Agrees() && tip in blockState
      modifies this
      ensures Agrees() && prevTip == tip
      ensures if old(prevTip) == tip then state == old(state) && snapshot == old(snapshot) && generated == old(generated)
              else state == snapshot == blockState[tip] && generated == []
    {
      if prevTip != tip {
        state := blockState[tip];
        prevTip := tip;
        snapshot, generated := state, [];
      }
    }

    /** `st` pays out all of a positive coin of this node. */
    predicate PaysFrom(s: Utxo, o: OutPoint, st: SignedTransaction) {
      HeldBy(s, o, addr) && s[o].value > 0 && st == Payment(publicKey, sign, o, s[o].value, peerAddrs)
    }

    /** One iteration after the refresh. A transaction is made unless this node has no coin or the
        first it comes upon, at position `at`, is worthless; it spends that coin, is in the mempool
        afterwards, and extends the accepted list. */
    method Generate(order: seq<OutPoint>) returns (made: Option<SignedTransaction>, ghost at: nat)
      requires Agrees() && Enumerates(order, state)
      modifies this, mempool
      ensures Agrees() && prevTip == old(prevTip) && snapshot == old(snapshot)
      ensures generated == old(generated) + (if made.Some? then [made.value] else [])
      ensures made.None? ==> state == old(state) && mempool.trans == old(mempool.trans)
      ensures made.Some? ==> exists o :: PaysFrom(old(state), o, made.value)
      ensures made.Some? ==> state == Updated(c, old(state), made.value)
      ensures made.Some? ==> mempool.trans.Keys == old(mempool.trans.Keys) + {TxHash(c, made.value)}
      ensures made.Some? ==> var h := c.signedHash(made.value);
        mempool.trans == if h in old(mempool.trans) then old(mempool.trans) else old(mempool.trans)[h := made.value]
      ensures made.Some? ==> FirstOwned(old(state), order, addr, at) && old(state)[order[at]].value > 0
      ensures made.Some? ==>
        && made.value.transaction.input == [Input(order[at].hash, order[at].index)]
        && made.value.transaction.output == PassCheck(old(state)[order[at]].value, peerAddrs)
        && made.value.publicKey == publicKey && made.value.signature == sign(made.value.transaction)
      ensures made.None? ==>
        || (forall o :: o in old(state) ==> old(state)[o].owner != addr)
        || (FirstOwned(old(state), order, addr, at) && old(state)[order[at]].value == 0)
      ensures made.None? ==> forall o :: HeldBy(old(state), o, addr) ==> SomeEmptyCoin(old(state), addr)
    {
      var inputs, balance;
      inputs, balance, at := GetTxBalance(state, order, addr);
      if balance == 0 {
        assert inputs != [] ==> EmptyCoin(state, Key(inputs[0]), addr);
        return None, at;
      }
      var o := Key(inputs[0]);
      var transaction := Transaction(inputs, PassCheck(balance, peerAddrs));
      var signed := SignedTransaction(transaction, sign(transaction), publicKey);
      assert inputs == [Input(o.hash, o.index)];
      assert PaysFrom(state, o, signed);
      PaymentPasses(c, state, publicKey, sign, o, peerAddrs);
      AppendPassing(c, snapshot, generated, signed);
      var txHash := TxHash(c, signed);
      if txHash !in mempool.trans {
        mempool.trans := mempool.trans[txHash := signed];
      }
      state := Apply(c, state, signed);
      generated := generated + [signed];
      made := Some(signed);
    }
  }
}
