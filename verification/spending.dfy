/** Who may spend what, and how often, along a list of valid transactions that starts from the
    initial coin offering. Premises about hashing concern only the transactions in the list. */
module Spending {
  import opened Hash
  import opened Types
  import opened Ledger

  ghost predicate SameIfSameHash(c: Crypto, a: SignedTransaction, b: SignedTransaction) {
    TxHash(c, a) == TxHash(c, b) ==> a == b
  }

  ghost predicate NonZeroHash(c: Crypto, a: SignedTransaction) {
    TxHash(c, a) != ZeroHash()
  }

  /** No two different transactions of the list share a hash, and none hashes to zero. */
  ghost predicate HashesDistinct(c: Crypto, txs: seq<SignedTransaction>) {
    && (forall i, j {:trigger SameIfSameHash(c, txs[i], txs[j])} ::
          0 <= i < |txs| && 0 <= j < |txs| ==> SameIfSameHash(c, txs[i], txs[j]))
    && (forall i {:trigger NonZeroHash(c, txs[i])} :: 0 <= i < |txs| ==> NonZeroHash(c, txs[i]))
  }

  /** A positive output sum is charged for: it is not a multiple of 2^32. */
  predicate Charged(st: SignedTransaction) {
    OutputValue(st) > 0 ==> OutputValue(st) % U32_LIMIT > 0
  }

  /** Whatever occurs twice is charged for. */
  ghost predicate RepeatsAreCharged(txs: seq<SignedTransaction>) {
    forall i, j :: 0 <= i < j < |txs| && txs[i] == txs[j] ==> Charged(txs[i])
  }

  // ---- Provenance --------------------------------------------------------------------------

  /** Every entry is the initial coin, or was written by an earlier transaction. */
  lemma {:induction false} Provenance(c: Crypto, owner: Address, txs: seq<SignedTransaction>, k: nat, o: OutPoint)
    returns (j: int)
    requires k <= |txs| && o in ReplayTo(c, Initial(owner), txs, k)
    ensures j < k
    ensures if j < 0 then o == IcoPoint()
            else Writes(c, txs[j], o, ReplayTo(c, Initial(owner), txs, k)[o])
    ensures j < 0 ==> ReplayTo(c, Initial(owner), txs, k)[o] == Entry(100, owner)
  {
    if k == 0 {
      j := -1;
    } else {
      var s := ReplayTo(c, Initial(owner), txs, k - 1);
      var e := ReplayTo(c, Initial(owner), txs, k)[o];
      UpdatedLookup(c, s, txs[k - 1], o);
      if Writes(c, txs[k - 1], o, e) {
        j := k - 1;
      } else {
        j := Provenance(c, owner, txs, k - 1, o);
      }
    }
  }

  /** An outpoint listed by transaction i and present again later was written in between. */
  lemma {:induction false} Rewritten(c: Crypto, s: Utxo, txs: seq<SignedTransaction>, i: nat, k: nat, o: OutPoint)
    returns (j: nat)
    requires i < k <= |txs| && Lists(txs[i], o) && o in ReplayTo(c, s, txs, k)
    ensures i <= j < k && Writes(c, txs[j], o, ReplayTo(c, s, txs, k)[o])
  {
    var e := ReplayTo(c, s, txs, k)[o];
    UpdatedLookup(c, ReplayTo(c, s, txs, k - 1), txs[k - 1], o);
    if Writes(c, txs[k - 1], o, e) {
      j := k - 1;
    } else {
      j := Rewritten(c, s, txs, i, k - 1, o);
    }
  }

  lemma {:induction false} OutputCounts(outs: seq<Output>, n: nat, idx: u8)
    requires n <= |outs|
    ensures OutputAt(outs, n, idx).Some? ==> OutputAt(outs, n, idx).value.value <= SumOutputs(outs, n)
  {
    if n > 0 {
      OutputCounts(outs, n - 1, idx);
    }
  }

  lemma {:induction false} SomeInputPositive(s: Utxo, ins: seq<Input>, n: nat) returns (i: nat)
    requires n <= |ins| && SumInputs(s, ins, n) > 0
    ensures i < n && ValueAt(s, Key(ins[i])) > 0
  {
    if ValueAt(s, Key(ins[n - 1])) > 0 {
      i := n - 1;
    } else {
      i := SomeInputPositive(s, ins, n - 1);
    }
  }

  /** A valid transaction that is charged for a positive output has an input of positive value. */
  lemma {:induction false} PositiveNeedsPositive(c: Crypto, s: Utxo, st: SignedTransaction) returns (o: OutPoint)
    requires Passes(c, s, st) && Charged(st) && OutputValue(st) > 0
    ensures Lists(st, o) && o in s && s[o].value > 0
  {
    var ins := st.transaction.input;
    assert InputValue(s, st) > 0;
    var i := SomeInputPositive(s, ins, |ins|);
    o := Key(ins[i]);
  }

  /** The state in which `owner` holds every input at zero. */
  function Worthless(ins: seq<Input>, owner: Address): Utxo {
    map o | o in Spent(ins, |ins|) :: Entry(0, owner)
  }

  lemma {:induction false} WorthlessSum(ins: seq<Input>, owner: Address, n: nat)
    requires n <= |ins|
    ensures SumInputs(Worthless(ins, owner), ins, n) == 0
  {
    if n > 0 {
      WorthlessSum(ins, owner, n - 1);
      assert Key(ins[n - 1]) in Spent(ins, |ins|);
    }
  }

  ghost predicate ListsValue(s: Utxo, st: SignedTransaction) {
    exists o :: Lists(st, o) && ValueAt(s, o) > 0
  }

  /** Exactly when value out needs value in: on every state on which a signed transaction of positive
      output passes it lists an input of value, if and only if it is charged. */
  lemma {:induction false} ValueNeedsValueIffCharged(c: Crypto, st: SignedTransaction)
    requires SignatureOk(c, st) && OutputValue(st) > 0
    ensures Charged(st) <==> forall s {:trigger Passes(c, s, st)} :: Passes(c, s, st) ==> ListsValue(s, st)
  {
    var ins, owner := st.transaction.input, AddressOf(c, st.publicKey);
    if Charged(st) {
      forall s | Passes(c, s, st)
        ensures ListsValue(s, st)
      {
        var o := PositiveNeedsPositive(c, s, st);
      }
    } else {
      var s := Worthless(ins, owner);
      WorthlessSum(ins, owner, |ins|);
      assert forall i :: 0 <= i < |ins| ==> Key(ins[i]) in Spent(ins, |ins|);
      assert Passes(c, s, st) && !ListsValue(s, st);
    }
  }

  // ---- No double spend ---------------------------------------------------------------------

  /** An outpoint listed at two positions held nothing at either. By descent on the first of the
      two: the outpoint was written before i and again by the same transaction later, so that
      transaction's own inputs were spent twice, the first time before i. */
  lemma {:induction false} SpentOnce(c: Crypto, owner: Address, txs: seq<SignedTransaction>, i: nat, j: nat,
        o: OutPoint)
    requires Valid(c, Initial(owner), txs) && HashesDistinct(c, txs) && RepeatsAreCharged(txs)
    requires i < j < |txs| && Lists(txs[i], o) && Lists(txs[j], o)
    ensures ValueAt(ReplayTo(c, Initial(owner), txs, i), o) == 0
    ensures ValueAt(ReplayTo(c, Initial(owner), txs, j), o) == 0
    decreases i
  {
    var si, sj := ReplayTo(c, Initial(owner), txs, i), ReplayTo(c, Initial(owner), txs, j);
    ListedIsPresent(c, owner, txs, i, o);
    ListedIsPresent(c, owner, txs, j, o);
    var first := Provenance(c, owner, txs, i, o);
    var again := Rewritten(c, Initial(owner), txs, i, j, o);
    assert NonZeroHash(c, txs[again]);
    assert first >= 0;
    assert SameIfSameHash(c, txs[first], txs[again]);
    assert si[o] == sj[o];
    if si[o].value > 0 {
      var tx := txs[again];
      OutputCounts(tx.transaction.output, |tx.transaction.output|, o.index);
      assert Charged(txs[first]) && PassesAt(c, Initial(owner), txs, again);
      var o' := PositiveNeedsPositive(c, ReplayTo(c, Initial(owner), txs, again), tx);
      SpentOnce(c, owner, txs, first, again, o');
    }
  }

  lemma {:induction false} ListedIsPresent(c: Crypto, owner: Address, txs: seq<SignedTransaction>, i: nat,
        o: OutPoint)
    requires Valid(c, Initial(owner), txs) && i < |txs| && Lists(txs[i], o)
    ensures HeldBy(ReplayTo(c, Initial(owner), txs, i), o, AddressOf(c, txs[i].publicKey))
  {
    assert PassesAt(c, Initial(owner), txs, i);
  }

  /** No outpoint holding value is consumed at two positions. */
  lemma {:induction false} NoDoubleSpend(c: Crypto, owner: Address, txs: seq<SignedTransaction>)
    requires Valid(c, Initial(owner), txs) && HashesDistinct(c, txs) && RepeatsAreCharged(txs)
    ensures forall i, j, o :: 0 <= i < j < |txs| && Lists(txs[i], o) && Lists(txs[j], o) ==>
              && ValueAt(ReplayTo(c, Initial(owner), txs, i), o) == 0
              && ValueAt(ReplayTo(c, Initial(owner), txs, j), o) == 0
  {
    forall i, j, o | 0 <= i < j < |txs| && Lists(txs[i], o) && Lists(txs[j], o)
      ensures ValueAt(ReplayTo(c, Initial(owner), txs, i), o) == 0
      ensures ValueAt(ReplayTo(c, Initial(owner), txs, j), o) == 0
    {
      SpentOnce(c, owner, txs, i, j, o);
    }
  }

  /** No transaction that moves value occurs twice. */
  lemma {:induction false} NoTransactionTwice(c: Crypto, owner: Address, txs: seq<SignedTransaction>, i: nat, j: nat)
    requires Valid(c, Initial(owner), txs) && HashesDistinct(c, txs) && RepeatsAreCharged(txs)
    requires i < j < |txs| && txs[i] == txs[j]
    ensures OutputValue(txs[i]) == 0
  {
    if OutputValue(txs[j]) > 0 {
      assert Charged(txs[i]) && PassesAt(c, Initial(owner), txs, j);
      var o := PositiveNeedsPositive(c, ReplayTo(c, Initial(owner), txs, j), txs[j]);
      SpentOnce(c, owner, txs, i, j, o);
    }
  }

  /** The premise is exact: in a valid history with distinct hashes only transactions without value
      occur twice if and only if whatever occurs twice is charged for. */
  lemma {:induction false} NothingTwiceIffCharged(c: Crypto, owner: Address, txs: seq<SignedTransaction>)
    requires Valid(c, Initial(owner), txs) && HashesDistinct(c, txs)
    ensures RepeatsAreCharged(txs) <==>
      forall i, j :: 0 <= i < j < |txs| && txs[i] == txs[j] ==> OutputValue(txs[i]) == 0
  {
    if RepeatsAreCharged(txs) {
      forall i, j | 0 <= i < j < |txs| && txs[i] == txs[j]
        ensures OutputValue(txs[i]) == 0
      {
        NoTransactionTwice(c, owner, txs, i, j);
      }
    }
  }

  /** What happens otherwise: the coin of a transaction `m` that has no inputs and is charged nothing is
      spent by `sp`, made again by `m` and spent again. */
  lemma {:induction false} UnchargedCoinSpentTwice(c: Crypto, s: Utxo, m: SignedTransaction, sp: SignedTransaction,
        idx: u8, e: Entry)
    requires SignatureOk(c, m) && m.transaction.input == [] && OutputValue(m) % U32_LIMIT == 0
    requires OutputAt(m.transaction.output, |m.transaction.output|, idx) == Some(e)
    requires SignatureOk(c, sp) && sp.transaction.input == [Input(TxHash(c, m), idx)]
    requires e.owner == AddressOf(c, sp.publicKey) && OutputValue(sp) <= e.value
    ensures var txs, o := [m, sp, m, sp], OutPoint(TxHash(c, m), idx);
      && Valid(c, s, txs) && Lists(txs[1], o) && Lists(txs[3], o)
      && ValueAt(ReplayTo(c, s, txs, 1), o) == ValueAt(ReplayTo(c, s, txs, 3), o) == e.value
  {
    var txs, o := [m, sp, m, sp], OutPoint(TxHash(c, m), idx);
    UnchargedThenSpent(c, s, m, sp, idx, e);
    UnchargedThenSpent(c, Replay(c, s, [m, sp]), m, sp, idx, e);
    assert txs == [m, sp] + [m, sp];
    ReplayConcat(c, s, [m, sp], [m, sp]);
    ReplayPrefix(c, s, [m, sp], [m, sp], 1);
    ReplaySuffix(c, s, [m, sp], [m, sp], 1);
  }

  lemma {:induction false} UnchargedThenSpent(c: Crypto, s: Utxo, m: SignedTransaction, sp: SignedTransaction,
        idx: u8, e: Entry)
    requires SignatureOk(c, m) && m.transaction.input == [] && OutputValue(m) % U32_LIMIT == 0
    requires OutputAt(m.transaction.output, |m.transaction.output|, idx) == Some(e)
    requires SignatureOk(c, sp) && sp.transaction.input == [Input(TxHash(c, m), idx)]
    requires e.owner == AddressOf(c, sp.publicKey) && OutputValue(sp) <= e.value
    ensures Valid(c, s, [m, sp]) && Lists(sp, OutPoint(TxHash(c, m), idx))
    ensures ValueAt(ReplayTo(c, s, [m, sp], 1), OutPoint(TxHash(c, m), idx)) == e.value
  {
    var txs, o := [m, sp], OutPoint(TxHash(c, m), idx);
    var t := ReplayTo(c, s, txs, 1);
    assert ReplayTo(c, s, txs, 0) == s && t == Updated(c, s, m);
    assert PassesAt(c, s, txs, 0);
    CreateLookup(s - Spent([], 0), TxHash(c, m), m.transaction.output, |m.transaction.output|, o);
    assert t[o] == e;
    assert Key(sp.transaction.input[0]) == o;
    assert SumInputs(t, sp.transaction.input, 0) == 0 && SumInputs(t, sp.transaction.input, 1) == e.value;
    assert PassesAt(c, s, txs, 1);
  }

  /** Such a history starts from the initial state: outputs of 2^31 and 2^31 are charged nothing, and the
      first of them is spent twice. */
  lemma {:induction false} DoubleSpendFromInitial(c: Crypto, owner: Address, key: Bytes, sig1: Bytes,
        sig2: Bytes, r: Address)
    requires var out := Output(AddressOf(c, key), 0x8000_0000);
      var m := SignedTransaction(Transaction([], [out, out]), sig1, key);
      SignatureOk(c, m)
      && c.verifies(Transaction([Input(TxHash(c, m), 0)], [Output(r, 0x8000_0000)]), key, sig2)
    ensures var out := Output(AddressOf(c, key), 0x8000_0000);
      var m := SignedTransaction(Transaction([], [out, out]), sig1, key);
      var sp := SignedTransaction(Transaction([Input(TxHash(c, m), 0)], [Output(r, 0x8000_0000)]), sig2, key);
      var txs, s, o := [m, sp, m, sp], Initial(owner), OutPoint(TxHash(c, m), 0);
      && Valid(c, s, txs) && Lists(txs[1], o) && Lists(txs[3], o)
      && ValueAt(ReplayTo(c, s, txs, 1), o) == ValueAt(ReplayTo(c, s, txs, 3), o) == 0x8000_0000
  {
    var out := Output(AddressOf(c, key), 0x8000_0000);
    var outs := [out, out];
    var m := SignedTransaction(Transaction([], outs), sig1, key);
    var sp := SignedTransaction(Transaction([Input(TxHash(c, m), 0)], [Output(r, 0x8000_0000)]), sig2, key);
    assert SumOutputs(outs, 0) == 0 && SumOutputs(sp.transaction.output, 0) == 0;
    assert SumOutputs(outs, 1) == 0x8000_0000;
    assert SumOutputs(outs, 2) == U32_LIMIT;
    assert SumOutputs(sp.transaction.output, 1) == 0x8000_0000;
    assert OutputAt(outs, 1, 0) == Some(Entry(0x8000_0000, AddressOf(c, key))) == OutputAt(outs, 2, 0);
    UnchargedCoinSpentTwice(c, Initial(owner), m, sp, 0, Entry(0x8000_0000, AddressOf(c, key)));
  }

  /** "Moves value" cannot be dropped: a signed transaction without inputs whose outputs are all
      zero is valid on every state, as often as one likes. */
  lemma {:induction false} ValuelessMayRepeat(c: Crypto, s: Utxo, st: SignedTransaction)
    requires SignatureOk(c, st) && st.transaction.input == [] && OutputValue(st) == 0
    ensures Valid(c, s, [st, st])
  {
    assert PassesAt(c, s, [st, st], 0) && PassesAt(c, s, [st, st], 1);
  }

  /** A key about to be written holds no value: either it is absent, or it was written with zero. */
  lemma {:induction false} WrittenKeysAreFresh(c: Crypto, owner: Address, txs: seq<SignedTransaction>, k: nat,
        idx: u8)
    requires Valid(c, Initial(owner), txs) && HashesDistinct(c, txs) && RepeatsAreCharged(txs) && k < |txs|
    ensures ValueAt(ReplayTo(c, Initial(owner), txs, k), OutPoint(TxHash(c, txs[k]), idx)) == 0
  {
    var s, o := ReplayTo(c, Initial(owner), txs, k), OutPoint(TxHash(c, txs[k]), idx);
    if o in s {
      var j := Provenance(c, owner, txs, k, o);
      assert NonZeroHash(c, txs[k]);
      assert j >= 0;
      assert SameIfSameHash(c, txs[j], txs[k]);
      NoTransactionTwice(c, owner, txs, j, k);
      OutputCounts(txs[j].transaction.output, |txs[j].transaction.output|, idx);
    }
  }

  // ---- Authorised spending -----------------------------------------------------------------

  /** Transaction `st` has `o` among its inputs, its signature verifies for its key, and the address of
      that key is `owner`. */
  predicate AuthorisedBy(c: Crypto, st: SignedTransaction, o: OutPoint, owner: Address) {
    && Consumes(st.transaction.input, o.hash, o.index)
    && c.verifies(st.transaction, st.publicKey, st.signature)
    && c.address(st.publicKey) == owner
  }

  lemma {:induction false} ListedIsAuthorised(c: Crypto, s: Utxo, st: SignedTransaction, o: OutPoint)
    requires Passes(c, s, st) && Lists(st, o) && o in s
    ensures AuthorisedBy(c, st, o, s[o].owner)
  {
    SpentIsConsumed(st.transaction.input, o.hash, o.index);
  }

  /** In one valid list, from any state: an entry survives unchanged, or was spent by a
      transaction its owner signed, or its key carries the hash of a transaction in the list. */
  lemma {:induction false} SpendingIsAuthorised(c: Crypto, s: Utxo, txs: seq<SignedTransaction>, k: nat, o: OutPoint)
    requires Valid(c, s, txs) && k <= |txs| && o in s
    ensures || (o in ReplayTo(c, s, txs, k) && ReplayTo(c, s, txs, k)[o] == s[o])
            || (exists j :: 0 <= j < k && AuthorisedBy(c, txs[j], o, s[o].owner))
            || (exists j :: 0 <= j < k && TxHash(c, txs[j]) == o.hash)
  {
    if k > 0 {
      SpendingIsAuthorised(c, s, txs, k - 1, o);
      var t := ReplayTo(c, s, txs, k - 1);
      if o in t && t[o] == s[o] {
        UpdatedLookup(c, t, txs[k - 1], o);
        if Lists(txs[k - 1], o) {
          assert PassesAt(c, s, txs, k - 1);
          ListedIsAuthorised(c, t, txs[k - 1], o);
        }
      }
    }
  }

  /** Over a whole history, with distinct hashes, the third case disappears: an entry present
      after i transactions is still there unchanged after k, or one of the transactions between
      lists it, carries a valid signature, and has the key of its owner. */
  lemma {:induction false} OnlyOwnersSpend(c: Crypto, owner: Address, txs: seq<SignedTransaction>, i: nat,
        k: nat, o: OutPoint)
    requires Valid(c, Initial(owner), txs) && HashesDistinct(c, txs)
    requires i <= k <= |txs| && o in ReplayTo(c, Initial(owner), txs, i)
    ensures var s, t := ReplayTo(c, Initial(owner), txs, i), ReplayTo(c, Initial(owner), txs, k);
      || (o in t && t[o] == s[o])
      || (exists j :: i <= j < k && AuthorisedBy(c, txs[j], o, s[o].owner))
    decreases k - i
  {
    if i < k {
      OnlyOwnersSpend(c, owner, txs, i, k - 1, o);
      var s, t := ReplayTo(c, Initial(owner), txs, i), ReplayTo(c, Initial(owner), txs, k - 1);
      if o in t && t[o] == s[o] {
        UpdatedLookup(c, t, txs[k - 1], o);
        if Lists(txs[k - 1], o) {
          assert PassesAt(c, Initial(owner), txs, k - 1);
          ListedIsAuthorised(c, t, txs[k - 1], o);
        } else {
          SameEntryRewritten(c, owner, txs, k - 1, o);
        }
      }
    }
  }

  /** Writing over an entry with distinct hashes writes the same entry. */
  lemma {:induction false} SameEntryRewritten(c: Crypto, owner: Address, txs: seq<SignedTransaction>, k: nat,
        o: OutPoint)
    requires HashesDistinct(c, txs) && k < |txs|
    requires o in ReplayTo(c, Initial(owner), txs, k)
    requires o in ReplayTo(c, Initial(owner), txs, k + 1)
    ensures Writes(c, txs[k], o, ReplayTo(c, Initial(owner), txs, k + 1)[o]) ==>
      ReplayTo(c, Initial(owner), txs, k + 1)[o] == ReplayTo(c, Initial(owner), txs, k)[o]
  {
    var j := Provenance(c, owner, txs, k, o);
    assert NonZeroHash(c, txs[k]);
    assert j >= 0 ==> SameIfSameHash(c, txs[j], txs[k]);
  }
}
