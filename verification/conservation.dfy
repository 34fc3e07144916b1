/** Exactly which input lists, and which output lists, validation conserves value for. The 32-bit input
    sum counts a repeated input as often as it is listed, and the 32-bit output sum wraps, so neither
    side is safe for every list; this module gives the exact condition on each side by itself. */
module Conservation {
  import opened Hash
  import opened Types
  import opened Ledger
  import opened Accounting

  /** A signed transaction that passes on `s` and leaves more than `s` holds. */
  ghost predicate Raises(c: Crypto, s: Utxo, st: SignedTransaction) {
    Passes(c, s, st) && Total(Updated(c, s, st)) > Total(s)
  }

  /** How often `o` is listed among the first n inputs. */
  function Repeats(ins: seq<Input>, n: nat, o: OutPoint): nat
    requires n <= |ins|
  {
    if n == 0 then 0 else Repeats(ins, n - 1, o) + if Key(ins[n - 1]) == o then 1 else 0
  }

  /** No outpoint is counted more than once, modulo 2^32. */
  ghost predicate SoundInputs(ins: seq<Input>) {
    forall o {:trigger Repeats(ins, |ins|, o)} :: Repeats(ins, |ins|, o) % U32_LIMIT <= 1
  }

  /** The value that n outputs leave once later ones have overwritten earlier ones at the same byte. */
  function Kept(outs: seq<Output>, n: nat): int
    requires n <= |outs|
  {
    if n == 0 then 0 else Kept(outs, n - 1) - ValueOf(OutputAt(outs, n - 1, (n - 1) % 256)) + outs[n - 1].value
  }

  function ValueOf(e: Option<Entry>): nat {
    if e.Some? then e.value.value else 0
  }

  /** What the outputs leave does not exceed the 32-bit sum they are charged at. */
  predicate SoundOutputs(outs: seq<Output>) {
    Kept(outs, |outs|) <= SumOutputs(outs, |outs|) % U32_LIMIT
  }

  // ---- Outputs -----------------------------------------------------------------------------

  /** Writing outputs adds at most what they leave, and exactly that to an empty state. */
  lemma {:induction false} CreateKeeps(s: Utxo, h: H256, outs: seq<Output>, n: nat)
    requires n <= |outs|
    ensures Total(Create(s, h, outs, n)) <= Total(s) + Kept(outs, n)
    ensures s == map[] ==> Total(Create(s, h, outs, n)) == Kept(outs, n)
  {
    if n > 0 {
      var t, o := Create(s, h, outs, n - 1), OutPoint(h, (n - 1) % 256);
      CreateKeeps(s, h, outs, n - 1);
      CreateLookup(s, h, outs, n - 1, o);
      TotalWith(t, o, Entry(outs[n - 1].value, outs[n - 1].recipient));
    }
  }

  lemma {:induction false} KeptIsBounded(outs: seq<Output>, n: nat)
    requires n <= |outs|
    ensures Kept(outs, n) <= SumOutputs(outs, n)
    ensures n <= 256 ==> Kept(outs, n) == SumOutputs(outs, n)
  {
    if n > 0 {
      KeptIsBounded(outs, n - 1);
      if n <= 256 {
        UnreachedIndex(outs, n - 1, n - 1);
      }
    }
  }

  // ---- Inputs ------------------------------------------------------------------------------

  lemma {:induction false} RepeatsCounts(ins: seq<Input>, n: nat, o: OutPoint)
    requires n <= |ins|
    ensures Repeats(ins, n, o) <= n
    ensures Repeats(ins, n, o) > 0 <==> o in Spent(ins, n)
    ensures forall i, j :: 0 <= i < j < n && Key(ins[i]) == Key(ins[j]) == o ==> Repeats(ins, n, o) >= 2
  {
    if n > 0 {
      RepeatsCounts(ins, n - 1, o);
      assert Spent(ins, n) == Spent(ins, n - 1) + {Key(ins[n - 1])};
    }
  }

  lemma {:induction false} DistinctRepeats(ins: seq<Input>, n: nat, o: OutPoint)
    requires n <= |ins| && Distinct(ins)
    ensures Repeats(ins, n, o) <= 1
  {
    if n > 0 {
      DistinctRepeats(ins, n - 1, o);
      RepeatsCounts(ins, n - 1, o);
    }
  }

  /** Below 2^32 inputs, counting nothing twice modulo 2^32 is listing nothing twice. */
  lemma {:induction false} SoundIsDistinct(ins: seq<Input>)
    ensures Distinct(ins) ==> SoundInputs(ins)
    ensures |ins| < U32_LIMIT && SoundInputs(ins) ==> Distinct(ins)
  {
    if Distinct(ins) {
      forall o
        ensures Repeats(ins, |ins|, o) % U32_LIMIT <= 1
      {
        DistinctRepeats(ins, |ins|, o);
      }
    } else if |ins| < U32_LIMIT {
      var i, j :| 0 <= i < j < |ins| && Key(ins[i]) == Key(ins[j]);
      RepeatsCounts(ins, |ins|, Key(ins[i]));
      assert Repeats(ins, |ins|, Key(ins[i])) % U32_LIMIT >= 2;
    }
  }

  /** One entry's share of an input sum. */
  lemma {:induction false} SumSplit(s: Utxo, ins: seq<Input>, n: nat, o: OutPoint)
    requires n <= |ins| && o in s
    ensures SumInputs(s, ins, n) == Repeats(ins, n, o) * s[o].value + SumInputs(s - {o}, ins, n)
  {
    if n > 0 {
      SumSplit(s, ins, n - 1, o);
      var v, r := s[o].value, Repeats(ins, n - 1, o);
      assert (r + 1) * v == r * v + v;
    }
  }

  lemma {:induction false} SumOfNothing(ins: seq<Input>, n: nat)
    requires n <= |ins|
    ensures SumInputs(map[], ins, n) == 0
  {
    if n > 0 {
      SumOfNothing(ins, n - 1);
    }
  }

  /** The entries counted once, modulo 2^32. */
  ghost function Once(s: Utxo, ins: seq<Input>): Utxo {
    map o | o in s && Repeats(ins, |ins|, o) % U32_LIMIT == 1 :: s[o]
  }

  lemma {:induction false} ModShare(r: nat, v: nat, x: nat, y: nat)
    requires r % U32_LIMIT <= 1 && x % U32_LIMIT == y % U32_LIMIT
    ensures (r * v + x) % U32_LIMIT == (if r % U32_LIMIT == 1 then v + y else y) % U32_LIMIT
  {
    var q, d := r / U32_LIMIT, r % U32_LIMIT;
    var e := x / U32_LIMIT - y / U32_LIMIT;
    assert r == q * U32_LIMIT + d;
    assert r * v == (q * v) * U32_LIMIT + d * v;
    assert d * v == if d == 1 then v else 0;
    var base := (if d == 1 then v else 0) + y;
    assert r * v + x == base + (q * v + e) * U32_LIMIT;
    ModCycle(base, q * v + e);
  }

  lemma {:induction false} ModCycle(a: int, k: int)
    ensures (a + k * U32_LIMIT) % U32_LIMIT == a % U32_LIMIT
  {
  }

  /** The 32-bit sum of sound inputs is that of the entries counted once. */
  lemma {:induction false} SumIsOnce(s: Utxo, ins: seq<Input>)
    requires SoundInputs(ins)
    ensures SumInputs(s, ins, |ins|) % U32_LIMIT == Total(Once(s, ins)) % U32_LIMIT
    decreases |s|
  {
    if s == map[] {
      SumOfNothing(ins, |ins|);
      assert Once(s, ins) == map[];
    } else {
      var o :| o in s;
      var rest := s - {o};
      assert s == rest[o := s[o]];
      SumIsOnce(rest, ins);
      SumSplit(s, ins, |ins|, o);
      ModShare(Repeats(ins, |ins|, o), s[o].value, SumInputs(rest, ins, |ins|), Total(Once(rest, ins)));
      if Repeats(ins, |ins|, o) % U32_LIMIT == 1 {
        assert Once(s, ins) == Once(rest, ins)[o := s[o]];
        TotalWith(Once(rest, ins), o, s[o]);
      } else {
        assert Once(s, ins) == Once(rest, ins);
      }
    }
  }

  /** A part of a state and the remainder make up its total. */
  lemma {:induction false} TotalOfPart(t: Utxo, s: Utxo)
    requires forall o :: o in t ==> o in s && s[o] == t[o]
    ensures Total(s) == Total(t) + Total(s - t.Keys)
    decreases |t|
  {
    if t == map[] {
      assert s - t.Keys == s;
    } else {
      var o :| o in t;
      PartWithout(t, s, o);
      TotalSplit(t, o);
      TotalSplit(s, o);
      TotalOfPart(t - {o}, s - {o});
    }
  }

  lemma {:induction false} PartWithout(t: Utxo, s: Utxo, o: OutPoint)
    requires (forall p :: p in t ==> p in s && s[p] == t[p]) && o in t
    ensures |t - {o}| < |t| && forall p :: p in t - {o} ==> p in s - {o} && (s - {o})[p] == (t - {o})[p]
    ensures s - {o} - (t - {o}).Keys == s - t.Keys
  {
    assert t == (t - {o})[o := t[o]];
    assert t.Keys == (t - {o}).Keys + {o};
  }

  /** What sound inputs are credited with is taken from the state. */
  lemma {:induction false} SpendTakesSum(s: Utxo, ins: seq<Input>)
    requires SoundInputs(ins)
    ensures Total(s - Spent(ins, |ins|)) <= Total(s) - SumInputs(s, ins, |ins|) % U32_LIMIT
  {
    var t, left := Once(s, ins), s - Spent(ins, |ins|);
    SumIsOnce(s, ins);
    TotalOfPart(t, s);
    SpentCoversOnce(s, ins);
    hide Once, Spent, SoundInputs, Total;
    TotalOfPart(left, s - t.Keys);
  }

  lemma {:induction false} SpentCoversOnce(s: Utxo, ins: seq<Input>)
    ensures var rest := s - Once(s, ins).Keys;
      forall o :: o in s - Spent(ins, |ins|) ==> o in rest && rest[o] == (s - Spent(ins, |ins|))[o]
  {
    forall o | o in s - Spent(ins, |ins|)
      ensures o !in Once(s, ins)
    {
      RepeatsCounts(ins, |ins|, o);
    }
  }

  // ---- The exact conditions ----------------------------------------------------------------

  /** A transaction sound on both sides never raises the total. */
  lemma {:induction false} SoundConserves(c: Crypto, s: Utxo, st: SignedTransaction)
    requires SoundInputs(st.transaction.input) && SoundOutputs(st.transaction.output)
    ensures !Raises(c, s, st)
  {
    var tx := st.transaction;
    if Passes(c, s, st) {
      SpendTakesSum(s, tx.input);
      CreateKeeps(s - Spent(tx.input, |tx.input|), TxHash(c, st), tx.output, |tx.output|);
    }
  }

  /** Sound on both sides. */
  ghost predicate SoundTx(st: SignedTransaction) {
    SoundInputs(st.transaction.input) && SoundOutputs(st.transaction.output)
  }

  ghost predicate AllSound(txs: seq<SignedTransaction>) {
    forall i {:trigger SoundTx(txs[i])} :: 0 <= i < |txs| ==> SoundTx(txs[i])
  }

  /** No distinct inputs and no exact output sum are ever unsound. */
  lemma {:induction false} RegularIsSound(st: SignedTransaction)
    requires Regular(st)
    ensures SoundTx(st)
  {
    SoundIsDistinct(st.transaction.input);
    KeptIsBounded(st.transaction.output, |st.transaction.output|);
  }

  /** No state reached while validating a list of sound transactions holds more than the state it starts
      from, whether or not the list is accepted in the end. */
  lemma {:induction false} ReplayConserves(c: Crypto, s: Utxo, txs: seq<SignedTransaction>, k: nat)
    requires k <= |txs| && PassesFirst(c, s, txs, k) && AllSound(txs)
    ensures Total(ReplayTo(c, s, txs, k)) <= Total(s)
  {
    if k > 0 {
      ReplayConserves(c, s, txs, k - 1);
      assert PassesAt(c, s, txs, k - 1) && SoundTx(txs[k - 1]);
      SoundConserves(c, ReplayTo(c, s, txs, k - 1), txs[k - 1]);
    }
  }

  /** The state in which `owner` holds one unit at `o` and nothing at the other inputs. */
  function UnitAt(ins: seq<Input>, o: OutPoint, owner: Address): Utxo {
    map p | p in Spent(ins, |ins|) :: Entry(if p == o then 1 else 0, owner)
  }

  lemma {:induction false} UnitAtSum(ins: seq<Input>, o: OutPoint, owner: Address, n: nat)
    requires n <= |ins|
    ensures SumInputs(UnitAt(ins, o, owner), ins, n) == Repeats(ins, n, o)
  {
    if n > 0 {
      UnitAtSum(ins, o, owner, n - 1);
      assert Key(ins[n - 1]) in Spent(ins, |ins|);
    }
  }

  lemma {:induction false} TotalOfZeros(s: Utxo)
    requires forall o :: o in s ==> s[o].value == 0
    ensures Total(s) == 0
    decreases |s|
  {
    if s != map[] {
      var o :| o in s;
      TotalSplit(s, o);
      assert s == (s - {o})[o := s[o]];
      TotalOfZeros(s - {o});
    }
  }

  lemma {:induction false} UnitAtTotal(ins: seq<Input>, o: OutPoint, owner: Address)
    requires o in Spent(ins, |ins|)
    ensures Total(UnitAt(ins, o, owner)) == 1
  {
    var s := UnitAt(ins, o, owner);
    TotalSplit(s, o);
    TotalOfZeros(s - {o});
  }

  lemma {:induction false} OneOutput(s: Utxo, h: H256, out: Output)
    ensures Create(s, h, [out], 1) == s[OutPoint(h, 0) := Entry(out.value, out.recipient)]
    ensures SumOutputs([out], 1) == out.value && SoundOutputs([out])
  {
    assert Create(s, h, [out], 0) == s && SumOutputs([out], 0) == 0 && Kept([out], 0) == 0;
    assert OutputAt([out], 0, 0) == None;
  }

  /** A list that counts `o` twice: paying out 2 passes where only 1 is held. */
  lemma {:induction false} RepetitionRaises(c: Crypto, ins: seq<Input>, o: OutPoint, st: SignedTransaction, r: Address)
    requires Repeats(ins, |ins|, o) % U32_LIMIT >= 2
    requires st.transaction == Transaction(ins, [Output(r, 2)]) && SignatureOk(c, st)
    ensures Raises(c, UnitAt(ins, o, AddressOf(c, st.publicKey)), st)
  {
    var owner := AddressOf(c, st.publicKey);
    var s := UnitAt(ins, o, owner);
    RepeatsCounts(ins, |ins|, o);
    UnitAtTotal(ins, o, owner);
    UnitAtSum(ins, o, owner, |ins|);
    assert s - Spent(ins, |ins|) == map[];
    OneOutput(map[], TxHash(c, st), Output(r, 2));
    TotalWith(map[], OutPoint(TxHash(c, st), 0), Entry(2, r));
    forall k | 0 <= k < |ins|
      ensures HeldBy(s, Key(ins[k]), owner)
    {
      assert Key(ins[k]) in Spent(ins, |ins|);
    }
  }

  /** Whatever the state, the signer and the (sound) outputs, validation conserves value for exactly
      the input lists that count nothing twice modulo 2^32; below 2^32 inputs these are the lists
      without repetition. `sign` gives some key a signature for any transaction. */
  lemma {:induction false} ConservesIffDistinct(c: Crypto, ins: seq<Input>, key: Bytes, sign: Transaction -> Bytes)
    requires forall tx :: c.verifies(tx, key, sign(tx))
    ensures SoundInputs(ins) <==>
      forall s, st: SignedTransaction ::
        st.transaction.input == ins && SoundOutputs(st.transaction.output) ==> !Raises(c, s, st)
    ensures Distinct(ins) ==> SoundInputs(ins)
    ensures |ins| < U32_LIMIT && SoundInputs(ins) ==> Distinct(ins)
  {
    SoundIsDistinct(ins);
    if SoundInputs(ins) {
      forall s, st: SignedTransaction | st.transaction.input == ins && SoundOutputs(st.transaction.output)
        ensures !Raises(c, s, st)
      {
        SoundConserves(c, s, st);
      }
    } else {
      var o :| Repeats(ins, |ins|, o) % U32_LIMIT >= 2;
      var out := Output(AddressOf(c, key), 2);
      var tx := Transaction(ins, [out]);
      var st := SignedTransaction(tx, sign(tx), key);
      OneOutput(map[], TxHash(c, st), out);
      RepetitionRaises(c, ins, o, st, AddressOf(c, key));
    }
  }

  /** The state in which `owner` holds exactly the 32-bit sum of `outs`, at `i`. */
  function Charged(outs: seq<Output>, i: Input, owner: Address): Utxo {
    map[Key(i) := Entry(SumOutputs(outs, |outs|) % U32_LIMIT, owner)]
  }

  lemma {:induction false} OneInput(s: Utxo, i: Input, owner: Address)
    requires HeldBy(s, Key(i), owner)
    ensures SumInputs(s, [i], 1) == s[Key(i)].value
    ensures Spent([i], 1) == {Key(i)} && SoundInputs([i])
  {
    assert SumInputs(s, [i], 0) == 0;
    assert [i][0] == i;
    SoundIsDistinct([i]);
  }

  lemma {:induction false} WrappingRaises(c: Crypto, outs: seq<Output>, st: SignedTransaction, i: Input)
    requires !SoundOutputs(outs)
    requires st.transaction == Transaction([i], outs) && SignatureOk(c, st)
    ensures Raises(c, Charged(outs, i, AddressOf(c, st.publicKey)), st)
  {
    var s := Charged(outs, i, AddressOf(c, st.publicKey));
    assert s == map[][Key(i) := s[Key(i)]];
    TotalWith(map[], Key(i), s[Key(i)]);
    OneInput(s, i, AddressOf(c, st.publicKey));
    assert s - Spent([i], 1) == map[];
    CreateKeeps(map[], TxHash(c, st), outs, |outs|);
  }

  /** Likewise, validation conserves value for exactly the output lists that leave no more than their
      32-bit sum. Up to 256 outputs these are the lists whose exact sum fits in 32 bits, and such a
      sum is enough at any length. */
  lemma {:induction false} ConservesIffExact(c: Crypto, outs: seq<Output>, key: Bytes, sign: Transaction -> Bytes)
    requires forall tx :: c.verifies(tx, key, sign(tx))
    ensures SoundOutputs(outs) <==>
      forall s, st: SignedTransaction ::
        st.transaction.output == outs && SoundInputs(st.transaction.input) ==> !Raises(c, s, st)
    ensures SumOutputs(outs, |outs|) < U32_LIMIT ==> SoundOutputs(outs)
    ensures |outs| <= 256 && SoundOutputs(outs) ==> SumOutputs(outs, |outs|) < U32_LIMIT
  {
    KeptIsBounded(outs, |outs|);
    if SoundOutputs(outs) {
      forall s, st: SignedTransaction | st.transaction.output == outs && SoundInputs(st.transaction.input)
        ensures !Raises(c, s, st)
      {
        SoundConserves(c, s, st);
      }
    } else {
      var i := Input(ZeroHash(), 0);
      var tx := Transaction([i], outs);
      var st := SignedTransaction(tx, sign(tx), key);
      SoundIsDistinct([i]);
      WrappingRaises(c, outs, st, i);
    }
  }

  // ---- From the initial state --------------------------------------------------------------

  /** The coins of the initial offering, as an input. */
  function IcoInput(): Input {
    Input(ZeroHash(), 0)
  }

  /** The failure is within reach: on the initial state the code accepts a transaction of the
      initial owner that lists the one coin twice, and 200 are left where 100 were. */
  lemma {:induction false} RepeatedInputFromInitial(c: Crypto, key: Bytes, signature: Bytes, r: Address)
    requires c.verifies(Transaction([IcoInput(), IcoInput()], [Output(r, 200)]), key, signature)
    ensures var txs := [SignedTransaction(Transaction([IcoInput(), IcoInput()], [Output(r, 200)]), signature, key)];
      var s := Initial(AddressOf(c, key));
      Total(s) == 100 && Valid(c, s, txs) && Total(Replay(c, s, txs)) == 200
  {
    var ins, owner := [IcoInput(), IcoInput()], AddressOf(c, key);
    var st := SignedTransaction(Transaction(ins, [Output(r, 200)]), signature, key);
    var s := Initial(owner);
    InitialTotal(owner);
    assert SumInputs(s, ins, 1) == SumInputs(s, ins, 0) + 100;
    assert SumInputs(s, ins, 2) == 200;
    OneOutput(map[], TxHash(c, st), Output(r, 200));
    assert Key(ins[0]) in Spent(ins, 2);
    assert s - Spent(ins, 2) == map[];
    TotalWith(map[], OutPoint(TxHash(c, st), 0), Entry(200, r));
    AcceptedAlone(c, s, st);
  }

  /** Likewise with outputs that wrap: 100 are charged and 2^32 + 100 are left. */
  lemma {:induction false} WrappedOutputsFromInitial(c: Crypto, key: Bytes, signature: Bytes, r: Address)
    requires c.verifies(Transaction([IcoInput()], [Output(r, 0xffff_ffff), Output(r, 101)]), key, signature)
    ensures var tx := Transaction([IcoInput()], [Output(r, 0xffff_ffff), Output(r, 101)]);
      var txs := [SignedTransaction(tx, signature, key)];
      var s := Initial(AddressOf(c, key));
      Total(s) == 100 && Valid(c, s, txs) && Total(Replay(c, s, txs)) == U32_LIMIT + 100
  {
    var outs, owner := [Output(r, 0xffff_ffff), Output(r, 101)], AddressOf(c, key);
    var st := SignedTransaction(Transaction([IcoInput()], outs), signature, key);
    var s := Initial(owner);
    InitialTotal(owner);
    OneInput(s, IcoInput(), owner);
    assert SumOutputs(outs, 1) == 0xffff_ffff && SumOutputs(outs, 2) == U32_LIMIT + 100;
    assert s - Spent([IcoInput()], 1) == map[];
    KeptIsBounded(outs, 2);
    CreateKeeps(map[], TxHash(c, st), outs, 2);
    AcceptedAlone(c, s, st);
  }

  lemma {:induction false} AcceptedAlone(c: Crypto, s: Utxo, st: SignedTransaction)
    requires Passes(c, s, st)
    ensures Valid(c, s, [st]) && Replay(c, s, [st]) == Updated(c, s, st)
  {
    assert ReplayTo(c, s, [st], 0) == s;
    assert ReplayTo(c, s, [st], 1) == Updated(c, s, st);
    assert PassesAt(c, s, [st], 0);
  }
}
