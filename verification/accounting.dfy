/** How much value a ledger state holds, and how validation changes it. */
module Accounting {
  import opened Hash
  import opened Types
  import opened Ledger
  import opened Spending

  /** The value of all entries. */
  ghost function Total(s: Utxo): nat
    decreases |s|
  {
    if s == map[] then 0
    else
      var o :| o in s;
      assert |s - {o}| < |s| by {
        assert s == (s - {o})[o := s[o]];
      }
      s[o].value + Total(s - {o})
  }

  lemma {:induction false} TotalSplit(s: Utxo, o: OutPoint)
    requires o in s
    ensures Total(s) == s[o].value + Total(s - {o})
    decreases |s|
  {
    var p :| p in s && Total(s) == s[p].value + Total(s - {p});
    if p != o {
      assert s == (s - {o})[o := s[o]] && s == (s - {p})[p := s[p]];
      TotalSplit(s - {p}, o);
      TotalSplit(s - {o}, p);
      assert s - {p} - {o} == s - {o} - {p};
    }
  }

  lemma {:induction false} TotalWithout(s: Utxo, o: OutPoint)
    ensures Total(s - {o}) == Total(s) - ValueAt(s, o)
  {
    if o in s {
      TotalSplit(s, o);
    } else {
      assert s - {o} == s;
    }
  }

  lemma {:induction false} TotalWith(s: Utxo, o: OutPoint, e: Entry)
    ensures Total(s[o := e]) == Total(s) - ValueAt(s, o) + e.value
  {
    TotalSplit(s[o := e], o);
    assert s[o := e] - {o} == s - {o};
    TotalWithout(s, o);
  }

  /** No outpoint is listed twice. */
  predicate Distinct(ins: seq<Input>) {
    forall i, j :: 0 <= i < j < |ins| ==> Key(ins[i]) != Key(ins[j])
  }

  /** Spending distinct inputs takes exactly their listed value. */
  lemma {:induction false} SpendTotal(s: Utxo, ins: seq<Input>, n: nat)
    requires n <= |ins| && Distinct(ins)
    ensures Total(s - Spent(ins, n)) == Total(s) - SumInputs(s, ins, n)
  {
    if n == 0 {
      assert s - Spent(ins, 0) == s;
    } else {
      var o, t := Key(ins[n - 1]), s - Spent(ins, n - 1);
      SpendTotal(s, ins, n - 1);
      TotalWithout(t, o);
      assert Spent(ins, n) == Spent(ins, n - 1) + {o};
      assert s - Spent(ins, n) == t - {o};
      assert ValueAt(t, o) == ValueAt(s, o);
    }
  }

  /** Writing outputs adds at most their value; overwriting can only lower the total. */
  lemma {:induction false} CreateTotal(s: Utxo, h: H256, outs: seq<Output>, n: nat)
    requires n <= |outs|
    ensures Total(Create(s, h, outs, n)) <= Total(s) + SumOutputs(outs, n)
  {
    if n > 0 {
      CreateTotal(s, h, outs, n - 1);
      TotalWith(Create(s, h, outs, n - 1), OutPoint(h, (n - 1) % 256),
                Entry(outs[n - 1].value, outs[n - 1].recipient));
    }
  }

  lemma {:induction false} UnreachedIndex(outs: seq<Output>, n: nat, idx: u8)
    requires n <= |outs| && n <= idx
    ensures OutputAt(outs, n, idx) == None
  {
    if n > 0 {
      UnreachedIndex(outs, n - 1, idx);
    }
  }

  /** With at most 256 outputs and no value under the keys written, it adds exactly their value. */
  lemma {:induction false} CreateTotalExact(s: Utxo, h: H256, outs: seq<Output>, n: nat)
    requires n <= |outs| <= 256
    requires forall idx: u8 :: ValueAt(s, OutPoint(h, idx)) == 0
    ensures Total(Create(s, h, outs, n)) == Total(s) + SumOutputs(outs, n)
  {
    if n > 0 {
      CreateTotalExact(s, h, outs, n - 1);
      var t, o := Create(s, h, outs, n - 1), OutPoint(h, n - 1);
      hide Total;
      TotalWith(t, o, Entry(outs[n - 1].value, outs[n - 1].recipient));
      NextIsUnwritten(s, h, outs, n - 1);
      assert (n - 1) % 256 == n - 1;
    }
  }

  lemma {:induction false} NextIsUnwritten(s: Utxo, h: H256, outs: seq<Output>, n: nat)
    requires n <= |outs| && n < 256
    ensures ValueAt(Create(s, h, outs, n), OutPoint(h, n)) == ValueAt(s, OutPoint(h, n))
  {
    CreateLookup(s, h, outs, n, OutPoint(h, n));
    UnreachedIndex(outs, n, n);
  }

  // ---- Conservation ------------------------------------------------------------------------

  /** The premises on one transaction: no repeated input, and an output sum of 32 bits. */
  predicate Regular(st: SignedTransaction) {
    Distinct(st.transaction.input) && OutputValue(st) < U32_LIMIT
  }

  ghost predicate AllRegular(txs: seq<SignedTransaction>) {
    forall i {:trigger Regular(txs[i])} :: 0 <= i < |txs| ==> Regular(txs[i])
  }

  /** The 32-bit input sum of a regular transaction is exact on any state that holds less
      than 2^32, at every point of the summation. */
  lemma {:induction false} InputSumNeverWraps(s: Utxo, ins: seq<Input>, n: nat)
    requires Distinct(ins) && n <= |ins| && Total(s) < U32_LIMIT
    ensures SumInputs(s, ins, n) <= Total(s)
    ensures SumInputs(s, ins, n) % U32_LIMIT == SumInputs(s, ins, n)
  {
    SpendTotal(s, ins, n);
  }

  /** A regular transaction that passes never raises the total. */
  lemma {:induction false} PassingConserves(c: Crypto, s: Utxo, st: SignedTransaction)
    requires Regular(st) && Passes(c, s, st) && Total(s) < U32_LIMIT
    ensures OutputValue(st) <= InputValue(s, st)
    ensures Total(Updated(c, s, st)) <= Total(s) - InputValue(s, st) + OutputValue(st)
  {
    var tx := st.transaction;
    InputSumNeverWraps(s, tx.input, |tx.input|);
    SpendTotal(s, tx.input, |tx.input|);
    CreateTotal(s - Spent(tx.input, |tx.input|), TxHash(c, st), tx.output, |tx.output|);
  }

  /** The first k transactions pass; nothing is said about the rest of the list. */
  ghost predicate PassesFirst(c: Crypto, s: Utxo, txs: seq<SignedTransaction>, k: nat)
    requires k <= |txs|
  {
    forall j {:trigger PassesAt(c, s, txs, j)} :: 0 <= j < k ==> PassesAt(c, s, txs, j)
  }

  // ---- Exact accounting --------------------------------------------------------------------

  /** What the first k transactions take in and do not pay out. */
  ghost function Fees(c: Crypto, s: Utxo, txs: seq<SignedTransaction>, k: nat): int
    requires k <= |txs|
  {
    if k == 0 then 0
    else Fees(c, s, txs, k - 1) + InputValue(ReplayTo(c, s, txs, k - 1), txs[k - 1]) - OutputValue(txs[k - 1])
  }

  ghost predicate FewOutputs(st: SignedTransaction) {
    |st.transaction.output| <= 256
  }

  lemma {:induction false} InitialTotal(owner: Address)
    ensures Total(Initial(owner)) == 100
  {
    TotalSplit(Initial(owner), IcoPoint());
    assert Initial(owner) - {IcoPoint()} == map[];
  }

  lemma {:induction false} RegularIsCharged(txs: seq<SignedTransaction>)
    requires AllRegular(txs)
    ensures RepeatsAreCharged(txs)
  {
    forall i, j | 0 <= i < j < |txs| && txs[i] == txs[j]
      ensures Charged(txs[i])
    {
      assert Regular(txs[i]);
    }
  }

  /** Along a valid history the total is exactly 100 less the fees, which only ever grow. That no written key hides an
      older value is a consequence of `Spending.NoDoubleSpend`, not a premise. */
  lemma {:induction false} ExactAccounting(c: Crypto, owner: Address, txs: seq<SignedTransaction>, k: nat)
    requires Valid(c, Initial(owner), txs) && HashesDistinct(c, txs) && AllRegular(txs)
    requires forall i {:trigger FewOutputs(txs[i])} :: 0 <= i < |txs| ==> FewOutputs(txs[i])
    requires k <= |txs|
    ensures Total(ReplayTo(c, Initial(owner), txs, k)) == 100 - Fees(c, Initial(owner), txs, k)
    ensures 0 <= Fees(c, Initial(owner), txs, k) <= 100
    ensures k > 0 ==> Fees(c, Initial(owner), txs, k - 1) <= Fees(c, Initial(owner), txs, k)
  {
    if k == 0 {
      InitialTotal(owner);
    } else {
      var s, st := ReplayTo(c, Initial(owner), txs, k - 1), txs[k - 1];
      ExactAccounting(c, owner, txs, k - 1);
      RegularIsCharged(txs);
      assert Regular(st) && FewOutputs(st) && PassesAt(c, Initial(owner), txs, k - 1);
      PassingConserves(c, s, st);
      forall idx: u8
        ensures ValueAt(s, OutPoint(TxHash(c, st), idx)) == 0
      {
        WrittenKeysAreFresh(c, owner, txs, k - 1, idx);
      }
      UpdateTotalExact(c, s, st);
    }
  }

  /** A transaction that lists nothing twice, writes at most 256 outputs and hides no value changes the
      total by exactly what it pays out less what it takes in. */
  lemma {:induction false} UpdateTotalExact(c: Crypto, s: Utxo, st: SignedTransaction)
    requires Distinct(st.transaction.input) && FewOutputs(st)
    requires forall idx: u8 :: ValueAt(s, OutPoint(TxHash(c, st), idx)) == 0
    ensures Total(Updated(c, s, st)) == Total(s) - InputValue(s, st) + OutputValue(st)
  {
    var ins, outs := st.transaction.input, st.transaction.output;
    SpendTotal(s, ins, |ins|);
    CreateTotalExact(s - Spent(ins, |ins|), TxHash(c, st), outs, |outs|);
  }
}
