/** The chain's transaction record, as far as the tool edits and inspects it. */
module Tx {
  import opened Bytes
  import opened Wrappers

  datatype HashType = Data | Type | Data1

  datatype Script = Script(codeHash: H256, hashType: HashType, args: Bytes)

  /** A cell reference: the transaction that created it and its output index (a `u32`). */
  datatype OutPoint = OutPoint(txHash: H256, index: nat)

  datatype CellInput = CellInput(previousOutput: OutPoint, since: nat)

  datatype CellOutput = CellOutput(capacity: nat, lock: Script, typeScript: Option<Script>)

  datatype DepType = Code | DepGroup

  datatype CellDep = CellDep(outPoint: OutPoint, depType: DepType)

  datatype Transaction = Transaction(
    version: nat,
    cellDeps: seq<CellDep>,
    headerDeps: seq<H256>,
    inputs: seq<CellInput>,
    outputs: seq<CellOutput>,
    outputsData: seq<Bytes>,
    witnesses: seq<Bytes>)

  /** The payload of an address; `codeHash` is what `code_hash(None)` yields for it. */
  datatype AddressPayload = AddressPayload(codeHash: H256, hashType: HashType, args: Bytes)

  datatype NetworkType = Mainnet | Testnet | Dev

  datatype Address = Address(network: NetworkType, payload: AddressPayload)

  /** `Script::from(&payload)`: the lock script an address stands for. */
  function LockOf(payload: AddressPayload): Script
  {
    Script(payload.codeHash, payload.hashType, payload.args)
  }
}
