/** The values the node exchanges (src/types/transaction.rs, src/types/block.rs,
    src/types/address.rs) and the cryptographic primitives they are used with. */
module Types {
  import opened Hash

  datatype Option<+T> = None | Some(value: T)

  type Bytes = seq<u8>

  datatype Address = Address(bytes: Bytes)

  datatype Input = Input(prevTrans: H256, index: u8)

  datatype Output = Output(recipient: Address, value: u32)

  datatype Transaction = Transaction(input: seq<Input>, output: seq<Output>)

  datatype SignedTransaction = SignedTransaction(
    transaction: Transaction, signature: Bytes, publicKey: Bytes)

  datatype Header = Header(parent: H256, nonce: u32, difficulty: H256, timestamp: nat, merkleRoot: H256)

  datatype Block = Block(head: Header, txs: seq<SignedTransaction>)

  /** SHA-256, Ed25519 and address derivation, left arbitrary. Each property below names the
      premises it needs about them, on the finitely many objects it is about. */
  datatype Crypto = Crypto(
    headerHash: Header -> H256,
    signedHash: SignedTransaction -> H256,
    pairHash: (H256, H256) -> H256,
    verifies: (Transaction, Bytes, Bytes) -> bool,
    address: Bytes -> Address)

  /** The hash of a block is that of its header: the body takes no part. */
  function BlockHash(c: Crypto, b: Block): H256 {
    c.headerHash(b.head)
  }

  function TxHash(c: Crypto, st: SignedTransaction): H256 {
    c.signedHash(st)
  }

  /** The free function `verify` applied to a signed transaction. */
  predicate SignatureOk(c: Crypto, st: SignedTransaction) {
    c.verifies(st.transaction, st.publicKey, st.signature)
  }

  function AddressOf(c: Crypto, key: Bytes): Address {
    c.address(key)
  }

  /** Where a coin sits: the transaction that made it and the position in its outputs. */
  datatype OutPoint = OutPoint(hash: H256, index: u8)

  datatype Entry = Entry(value: u32, owner: Address)

  /** The unspent coins: field `states` of the source's `State`. */
  type Utxo = map<OutPoint, Entry>

  function Key(i: Input): OutPoint {
    OutPoint(i.prevTrans, i.index)
  }
}
