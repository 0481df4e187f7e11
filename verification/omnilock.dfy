/** The boundary to the chain SDK (`ckb_sdk`): the omnilock configuration carried in an
    envelope, the script groups `unlock_tx` reports, and the SDK, hash and key functions the
    tool calls. None of the SDK code is part of this model, so its functions are fields of the
    `Sdk` record and stay uninterpreted. */
module Omnilock {
  import opened Bytes
  import opened Wrappers
  import opened Errors
  import opened Tx
  import opened ArgParser

  /** The SDK's multisig configuration: member hashes in declared order, require-first-n, threshold. */
  datatype MultisigConfig = MultisigConfig(sighashAddresses: seq<H160>, requireFirstN: U8, threshold: U8)

  /** The auth identity of an omnilock config: which method, and its 20-byte auth content. */
  datatype IdentityFlag = PubkeyHash | Ethereum | Eos | Tron | Bitcoin | Dogecoin | Multisig | OwnerLock | Exec | Dl

  datatype Identity = Identity(flag: IdentityFlag, authContent: H160)

  /** The open-transaction witness of a config in opentx mode; its layout is the SDK's. */
  datatype OpentxWitness = OpentxWitness(raw: Bytes)

  /** `OmniLockConfig`, as far as the signing commands read it. */
  datatype OmniLockConfig = OmniLockConfig(
    id: Identity,
    multisig: Option<MultisigConfig>,
    opentxMode: bool,
    opentxInput: Option<OpentxWitness>)

  /** A set of inputs sharing one lock script, as reported back by `unlock_tx`. */
  datatype ScriptGroup = ScriptGroup(script: Script, inputIndices: seq<nat>, outputIndices: seq<nat>)

  /** What `sign_tx_` returns: the signed transaction and the groups that are still locked. */
  datatype Unlocked = Unlocked(tx: Transaction, stillLocked: seq<ScriptGroup>)

  /** The SDK and library functions the signing commands call, left uninterpreted. */
  datatype Sdk = Sdk(
    /** `zero_lock(OmniUnlockMode::Normal)`: the placeholder lock field of a config. */
    zeroLock: OmniLockConfig -> Result<Bytes, Error>,
    /** `MultisigConfig::to_witness_data`. */
    multisigWitnessData: MultisigConfig -> Bytes,
    /** `OpentxWitness::opentx_sig_data_len`. */
    opentxSigDataLen: OpentxWitness -> nat,
    /** `WitnessArgs::from_slice(w)?.lock().to_opt()`, in raw bytes. */
    witnessArgsLock: Bytes -> Result<Option<Bytes>, Error>,
    /** `OmniLockWitnessLock::from_slice(l)?.signature().to_opt()`, in raw bytes. */
    witnessLockSignature: Bytes -> Result<Option<Bytes>, Error>,
    /** `PublicKey::from_secret_key(..).serialize()`: the compressed public key. */
    serializedPubkey: SecretKey -> Bytes,
    /** `Pubkey::from(PublicKey::from_secret_key(..))`: the uncompressed key used by Ethereum. */
    ethereumPubkey: SecretKey -> Bytes,
    blake2b256: Bytes -> H256,
    keccak160: Bytes -> H160,
    /** `sign_tx_`: resolve the omnilock cell dep over RPC, build the unlockers for the keys and
        run `unlock_tx`. */
    signTx: (Transaction, OmniLockConfig, seq<PrivkeyWrapper>) -> Result<Unlocked, Error>)
}
