/** The records of the batch definition (src/types.rs): a multisig batch, the
    metadata of an object, one transaction of the batch, and the parts of a
    parsed contract function that the generator and the renderer touch. */
module Types {

  const TWO_64: nat := 0x1_0000_0000_0000_0000
  const TWO_256: nat := 0x1_0000_0000_0000_0000_0000_0000_0000_0000_0000_0000_0000_0000_0000_0000_0000_0000

  /** Rust's `u64` (chain ID, transaction count). */
  type U64 = n: nat | n < TWO_64

  /** A 256-bit unsigned quantity (the value sent with a transaction, in wei). */
  type U256 = n: nat | n < TWO_256

  type Byte = bv8

  /** A 20-byte account address. */
  type Address = s: seq<Byte> | |s| == 20 witness seq(20, _ => 0)

  /** Arbitrary call data. */
  type Bytes = seq<Byte>

  /** Name and description of a batch or of one of its transactions. */
  datatype ObjectMetadata = ObjectMetadata(name: string, description: string)

  /** One parameter of a contract function: its name (possibly empty) and the
      text of its ABI type. */
  datatype Param = Param(name: string, ty: string)

  /** A parsed contract function: name, ordered inputs, ordered outputs. */
  datatype Function = Function(name: string, inputs: seq<Param>, outputs: seq<Param>)

  /** One transaction of a batch. `contractInputsValues` maps each parameter
      name to the literal the user typed for it. */
  datatype BatchTransaction = BatchTransaction(
    metadata: ObjectMetadata,
    to: Address,
    value: U256,
    data: Bytes,
    contractMethod: Function,
    contractInputsValues: map<string, string>)

  /** A whole batch definition. */
  datatype MultisigBatch = MultisigBatch(
    chainId: U64,
    metadata: ObjectMetadata,
    transactions: seq<BatchTransaction>)
}
