/** Multisig configuration validation and the address-builder dispatch of src/build_addr.rs. */
module BuildAddr {
  import opened Bytes
  import opened Wrappers
  import opened Errors
  import opened Tx
  import opened Omnilock

  /** `SIGHASH_TYPE_HASH` of the SDK: the type hash of the secp256k1/blake160 sighash lock. */
  const SighashTypeHash: H256 := [
    0x9b, 0xd7, 0xe0, 0x6f, 0x3e, 0xcf, 0x4b, 0xe0, 0xf2, 0xfc, 0xd2, 0x18, 0x8b, 0x23, 0xf1, 0xb9,
    0xfc, 0xc8, 0x8e, 0x5d, 0x4b, 0x65, 0xa8, 0x63, 0x7b, 0x17, 0x72, 0x3b, 0xbd, 0xa3, 0xcc, 0xe8]

  /** A plain sighash address: the sighash code hash, hash type `Type`, and 20-byte args. */
  predicate IsSighashAddress(a: Address) {
    && a.payload.codeHash == SighashTypeHash
    && a.payload.hashType == Type
    && |a.payload.args| == 20
  }

  /** The loop of `build_multisig_config`: every address must be a sighash address, and the
      result lists their args in the order given; the first offending address is reported. */
  function CollectSighashArgs(addrs: seq<Address>): (r: Result<seq<H160>, Error>)
    ensures r.Success? <==> forall i :: 0 <= i < |addrs| ==> IsSighashAddress(addrs[i])
    ensures r.Success? ==> |r.value| == |addrs|
    ensures r.Success? ==> forall i :: 0 <= i < |addrs| ==> r.value[i] == addrs[i].payload.args
    ensures r.Failure? ==> exists k ::
      && 0 <= k < |addrs| && !IsSighashAddress(addrs[k])
      && (forall j :: 0 <= j < k ==> IsSighashAddress(addrs[j]))
      && r.error == InvalidSighashAddress(addrs[k])
  {
    if |addrs| == 0 then Success([])
    else if !IsSighashAddress(addrs[0]) then Failure(InvalidSighashAddress(addrs[0]))
    else
      match CollectSighashArgs(addrs[1..])
      case Failure(e) =>
        assert forall j :: 1 <= j < |addrs| ==> addrs[j] == addrs[1..][j - 1];
        Failure(e)
      case Success(rest) =>
        assert forall j :: 1 <= j < |addrs| ==> addrs[j] == addrs[1..][j - 1];
        var h: H160 := addrs[0].payload.args;
        Success([h] + rest)
  }

  /** `MultisigConfig::new_with`, whose own validation is the SDK's. */
  type NewWith = (seq<H160>, U8, U8) -> Result<MultisigConfig, string>

  /** `build_multisig_config`: an empty list is rejected, then every address is checked, then the
      hash list goes unchanged, with `require_first_n` and `threshold`, to `new_with`, whose
      error is reported. */
  function BuildMultisigConfig(addrs: seq<Address>, requireFirstN: U8, threshold: U8, newWith: NewWith)
    : (r: Result<MultisigConfig, Error>)
    ensures |addrs| == 0 ==> r == Failure(NoSighashAddress)
    ensures |addrs| > 0 && CollectSighashArgs(addrs).Failure? ==> r == Failure(CollectSighashArgs(addrs).error)
    ensures (&& |addrs| > 0 && CollectSighashArgs(addrs).Success?
             && newWith(CollectSighashArgs(addrs).value, requireFirstN, threshold).Success?) ==>
      r == Success(newWith(CollectSighashArgs(addrs).value, requireFirstN, threshold).value)
    ensures (&& |addrs| > 0 && CollectSighashArgs(addrs).Success?
             && newWith(CollectSighashArgs(addrs).value, requireFirstN, threshold).Failure?) ==>
      r == Failure(Library(newWith(CollectSighashArgs(addrs).value, requireFirstN, threshold).error))
  {
    if |addrs| == 0 then Failure(NoSighashAddress)
    else
      var hashes :- CollectSighashArgs(addrs);
      newWith(hashes, requireFirstN, threshold).MapFailure(e => Library(e))
  }

  /** A successful configuration is exactly what `new_with` built from the addresses' args,
      listed in the order the addresses were given. */
  lemma {:induction false} BuiltConfigListsArgsInOrder(addrs: seq<Address>, requireFirstN: U8, threshold: U8, newWith: NewWith)
    requires BuildMultisigConfig(addrs, requireFirstN, threshold, newWith).Success?
    ensures |addrs| > 0
    ensures forall i :: 0 <= i < |addrs| ==> IsSighashAddress(addrs[i])
    ensures exists hashes: seq<H160> ::
      && |hashes| == |addrs|
      && (forall i :: 0 <= i < |addrs| ==> hashes[i] == addrs[i].payload.args)
      && newWith(hashes, requireFirstN, threshold) == Success(BuildMultisigConfig(addrs, requireFirstN, threshold, newWith).value)
  {
    var hashes := CollectSighashArgs(addrs).value;
    assert newWith(hashes, requireFirstN, threshold) == Success(BuildMultisigConfig(addrs, requireFirstN, threshold, newWith).value);
  }

  datatype MultisigArgs = MultisigArgs(requireFirstN: U8, threshold: U8, sighashAddress: seq<Address>)

  /** The `build-address` sub-commands. */
  datatype BuildAddress =
    | PubkeyHashAddr | EthereumAddr | EosAddr | TronAddr | BitcoinAddr | DogecoinAddr
    | MultisigAddr(args: MultisigArgs)
    | OwnerLockAddr | ExecAddr | DlAddr

  /** What the command prints: the new address payload, or that the variant is not supported. */
  datatype AddrReport = NotSupported | Built(payload: AddressPayload)

  /** `build_multisig_addr`: the omnilock type hash is looked up first (`typeHash` stands for the
      RPC call of `build_omnilock_cell_dep`), then the config is built, and the address payload is
      a full `Type` payload over the omnilock type hash with the config's args (`buildArgs` is
      `OmniLockConfig::new_multisig(..).build_args()`). */
  function BuildMultisigAddr(args: MultisigArgs, typeHash: Result<H256, Error>, newWith: NewWith,
                             buildArgs: MultisigConfig -> Bytes): (r: Result<AddressPayload, Error>)
    ensures typeHash.Failure? ==> r == Failure(typeHash.error)
    ensures r.Success? ==>
      && typeHash.Success?
      && BuildMultisigConfig(args.sighashAddress, args.requireFirstN, args.threshold, newWith).Success?
      && r.value == AddressPayload(typeHash.value, Type,
           buildArgs(BuildMultisigConfig(args.sighashAddress, args.requireFirstN, args.threshold, newWith).value))
    ensures typeHash.Success? && BuildMultisigConfig(args.sighashAddress, args.requireFirstN, args.threshold, newWith).Failure? ==>
      r == Failure(BuildMultisigConfig(args.sighashAddress, args.requireFirstN, args.threshold, newWith).error)
    ensures r.Success? <==>
      typeHash.Success? && BuildMultisigConfig(args.sighashAddress, args.requireFirstN, args.threshold, newWith).Success?
  {
    var hash :- typeHash;
    var config :- BuildMultisigConfig(args.sighashAddress, args.requireFirstN, args.threshold, newWith);
    Success(AddressPayload(hash, Type, buildArgs(config)))
  }

  /** `build_omnilock_addr`: only the multisig variant builds an address; every other variant
      reports that it is not supported and still succeeds. */
  function BuildOmnilockAddr(cmd: BuildAddress, typeHash: Result<H256, Error>, newWith: NewWith,
                             buildArgs: MultisigConfig -> Bytes): (r: Result<AddrReport, Error>)
    ensures !cmd.MultisigAddr? ==> r == Success(NotSupported)
    ensures cmd.MultisigAddr? ==> var built := BuildMultisigAddr(cmd.args, typeHash, newWith, buildArgs);
      && (built.Success? ==> r == Success(Built(built.value)))
      && (built.Failure? ==> r == Failure(built.error))
  {
    match cmd
    case MultisigAddr(args) =>
      var payload :- BuildMultisigAddr(args, typeHash, newWith, buildArgs);
      Success(Built(payload))
    case _ => Success(NotSupported)
  }
}
