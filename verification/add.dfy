/** The envelope edits of src/add.rs: `add-output` appends an output, `add-input` appends a live
    cell as input together with the cell dep of its lock. */
module Add {
  import opened Bytes
  import opened Wrappers
  import opened Errors
  import opened Tx
  import opened Envelope

  /** Everything but the outputs and their data is as in `before`. */
  predicate OnlyOutputsChanged(before: Transaction, after: Transaction) {
    && after.version == before.version
    && after.cellDeps == before.cellDeps
    && after.headerDeps == before.headerDeps
    && after.inputs == before.inputs
    && after.witnesses == before.witnesses
  }

  /** Everything but the inputs and the cell deps is as in `before`. */
  predicate OnlyInputsAndDepsChanged(before: Transaction, after: Transaction) {
    && after.version == before.version
    && after.headerDeps == before.headerDeps
    && after.outputs == before.outputs
    && after.outputsData == before.outputsData
    && after.witnesses == before.witnesses
  }

  /** The builder step of `handle_add_output`: one output at the end, and one empty data entry
      at the end of the output data. */
  function AddOutput(tx: Transaction, output: CellOutput): (t: Transaction)
    ensures |t.outputs| == |tx.outputs| + 1 && t.outputs[|tx.outputs|] == output
    ensures t.outputs[..|tx.outputs|] == tx.outputs
    ensures |t.outputsData| == |tx.outputsData| + 1 && t.outputsData[|tx.outputsData|] == []
    ensures t.outputsData[..|tx.outputsData|] == tx.outputsData
    ensures OnlyOutputsChanged(tx, t)
  {
    tx.(outputs := tx.outputs + [output], outputsData := tx.outputsData + [[]])
  }

  /** Removing the last output and its data undoes `AddOutput`. */
  function DropLastOutput(tx: Transaction): Transaction
    requires |tx.outputs| > 0 && |tx.outputsData| > 0
  {
    tx.(outputs := tx.outputs[..|tx.outputs| - 1], outputsData := tx.outputsData[..|tx.outputsData| - 1])
  }

  lemma DropLastOutputUndoesAdd(tx: Transaction, output: CellOutput)
    ensures DropLastOutput(AddOutput(tx, output)) == tx
  {
    var t := AddOutput(tx, output);
    assert t.outputs[..|t.outputs| - 1] == tx.outputs;
    assert t.outputsData[..|t.outputsData| - 1] == tx.outputsData;
  }

  /** Outputs and output data stay in step. */
  lemma AddOutputKeepsDataInStep(tx: Transaction, output: CellOutput)
    requires |tx.outputs| == |tx.outputsData|
    ensures |AddOutput(tx, output).outputs| == |AddOutput(tx, output).outputsData|
  {
  }

  /** `handle_add_output`: the output locks its capacity (in shannons) to the receiver's address,
      and the omnilock config is written back as it was read. */
  function HandleAddOutput(info: TxInfo, toAddress: Address, capacity: nat): (r: TxInfo)
    ensures r.omnilockConfig == info.omnilockConfig
    ensures r.transaction == AddOutput(info.transaction, CellOutput(capacity, LockOf(toAddress.payload), None))
    ensures r.transaction.outputs[|info.transaction.outputs|].lock.args == toAddress.payload.args
  {
    var output := CellOutput(capacity, LockOf(toAddress.payload), None);
    TxInfo(AddOutput(info.transaction, output), info.omnilockConfig)
  }

  /** `ScriptId`: a code hash and its hash type. */
  datatype ScriptId = ScriptId(codeHash: H256, hashType: HashType)

  datatype Block = Block(transactions: seq<Transaction>)

  /** The node as `add_live_cell` queries it. */
  datatype Chain = Chain(
    /** `get_live_cell(out_point, false)`: the cell's output, `None` when it is not live. */
    liveCell: OutPoint -> Result<Option<CellOutput>, Error>,
    /** `get_block_by_number(0)`. */
    genesisBlock: Result<Option<Block>, Error>,
    /** `DefaultCellDepResolver::from_genesis`: the cell deps of the genesis scripts. */
    cellDepResolver: Block -> Result<map<ScriptId, CellDep>, Error>)

  /** `args.index as u32`. */
  function AsU32(n: nat): (u: nat)
    ensures u < 0x1_0000_0000
    ensures n < 0x1_0000_0000 ==> u == n
    ensures u % 0x1_0000_0000 == n % 0x1_0000_0000
  {
    n % 0x1_0000_0000
  }

  /** The requested cell, with the index truncated to 32 bits. */
  function InputOutPoint(txHash: H256, index: nat): OutPoint {
    OutPoint(txHash, AsU32(index))
  }

  /** `add_live_cell`: the live cell's output point becomes a new last input with `since` 0, and
      the genesis cell dep of its lock's code hash (as a `Type` script) a new last cell dep. A
      failed RPC is reported; a missing genesis block, a dead cell or an unknown lock panics. */
  function AddLiveCell(tx: Transaction, txHash: H256, index: nat, chain: Chain): (r: Result<Transaction, Error>)
    ensures chain.liveCell(InputOutPoint(txHash, index)).Failure? ==>
      r == Failure(chain.liveCell(InputOutPoint(txHash, index)).error)
    ensures chain.liveCell(InputOutPoint(txHash, index)).Success? && chain.genesisBlock.Failure? ==>
      r == Failure(chain.genesisBlock.error)
    ensures (&& chain.liveCell(InputOutPoint(txHash, index)).Success?
             && chain.genesisBlock.Success? && chain.genesisBlock.value.Some?
             && chain.cellDepResolver(chain.genesisBlock.value.value).Failure?) ==>
      r == Failure(chain.cellDepResolver(chain.genesisBlock.value.value).error)
    ensures r.Success? ==>
      && |r.value.inputs| == |tx.inputs| + 1
      && r.value.inputs[..|tx.inputs|] == tx.inputs
      && r.value.inputs[|tx.inputs|] == CellInput(InputOutPoint(txHash, index), 0)
      && |r.value.cellDeps| == |tx.cellDeps| + 1
      && r.value.cellDeps[..|tx.cellDeps|] == tx.cellDeps
      && OnlyInputsAndDepsChanged(tx, r.value)
    ensures r.Success? <==>
      && chain.liveCell(InputOutPoint(txHash, index)).Success?
      && chain.liveCell(InputOutPoint(txHash, index)).value.Some?
      && chain.genesisBlock.Success? && chain.genesisBlock.value.Some?
      && chain.cellDepResolver(chain.genesisBlock.value.value).Success?
      && ScriptId(chain.liveCell(InputOutPoint(txHash, index)).value.value.lock.codeHash, Type)
           in chain.cellDepResolver(chain.genesisBlock.value.value).value
    ensures chain.liveCell(InputOutPoint(txHash, index)).Success? && chain.genesisBlock == Success(None) ==>
      r == Failure(Panic("genesis block"))
    ensures (&& chain.liveCell(InputOutPoint(txHash, index)) == Success(None)
             && chain.genesisBlock.Success? && chain.genesisBlock.value.Some?
             && chain.cellDepResolver(chain.genesisBlock.value.value).Success?) ==>
      r == Failure(Panic("live cell"))
    ensures (&& chain.liveCell(InputOutPoint(txHash, index)).Success?
             && chain.liveCell(InputOutPoint(txHash, index)).value.Some?
             && chain.genesisBlock.Success? && chain.genesisBlock.value.Some?
             && chain.cellDepResolver(chain.genesisBlock.value.value).Success?
             && ScriptId(chain.liveCell(InputOutPoint(txHash, index)).value.value.lock.codeHash, Type)
                  !in chain.cellDepResolver(chain.genesisBlock.value.value).value) ==>
      r == Failure(Panic("cell dep of the input's lock"))
    ensures r.Success? ==>
      r.value.cellDeps[|tx.cellDeps|]
      == chain.cellDepResolver(chain.genesisBlock.value.value).value[
           ScriptId(chain.liveCell(InputOutPoint(txHash, index)).value.value.lock.codeHash, Type)]
  {
    var outPoint := InputOutPoint(txHash, index);
    var cell :- chain.liveCell(outPoint);
    var input := CellInput(outPoint, 0);
    var genesis :- chain.genesisBlock;
    if genesis.None? then Failure(Panic("genesis block"))
    else
      var resolver :- chain.cellDepResolver(genesis.value);
      if cell.None? then Failure(Panic("live cell"))
      else
        var scriptId := ScriptId(cell.value.lock.codeHash, Type);
        if scriptId !in resolver then Failure(Panic("cell dep of the input's lock"))
        else
          Success(tx.(inputs := tx.inputs + [input], cellDeps := tx.cellDeps + [resolver[scriptId]]))
  }

  /** Removing the last input and the last cell dep undoes a successful `AddLiveCell`. */
  lemma {:induction false} AddLiveCellIsUndoable(tx: Transaction, txHash: H256, index: nat, chain: Chain)
    requires AddLiveCell(tx, txHash, index, chain).Success?
    ensures var t := AddLiveCell(tx, txHash, index, chain).value;
      t.(inputs := t.inputs[..|t.inputs| - 1], cellDeps := t.cellDeps[..|t.cellDeps| - 1]) == tx
  {
  }

  /** `handle_add_input`: the edited transaction is written with the config it was read with. */
  function HandleAddInput(info: TxInfo, txHash: H256, index: nat, chain: Chain): (r: Result<TxInfo, Error>)
    ensures r.Success? <==> AddLiveCell(info.transaction, txHash, index, chain).Success?
    ensures AddLiveCell(info.transaction, txHash, index, chain).Failure? ==>
      r == Failure(AddLiveCell(info.transaction, txHash, index, chain).error)
    ensures r.Success? ==> r.value.omnilockConfig == info.omnilockConfig
    ensures r.Success? ==> r.value.transaction == AddLiveCell(info.transaction, txHash, index, chain).value
  {
    var tx :- AddLiveCell(info.transaction, txHash, index, chain);
    Success(TxInfo(tx, info.omnilockConfig))
  }
}
