/** The errors the command-line tool reports. Each aborts the current command before the
    envelope file is written. */
module Errors {
  import opened Bytes
  import Tx

  /** The kinds of `std::io::Error` raised while loading the configuration file. */
  datatype IoKind = NotFound | InvalidInput | InvalidData | PermissionDenied | OtherIo

  datatype Error =
    /** An error raised inside a library (SDK, RPC client, hash parser) and propagated by `?`. */
    | Library(detail: string)
    /** An `unwrap()` on a missing value: the process aborts, nothing is written. */
    | Panic(site: string)
    /** Neither a private key nor a keystore account was given. */
    | MissingKeySource
    /** The signer's hash160 differs from the auth content of the omnilock config. */
    | HashNotFound(hash: H160)
    /** "Failed to sign the transaction!" */
    | FailedToSign
    /** "You may tried signed the second time with the same private key!" */
    | SignedTwice
    /** "{threshold} signatures need, but got {empty} left to sign!" */
    | TooManyEmptySlots(threshold: nat, empty: nat)
    /** "Must have at least one sighash_address" */
    | NoSighashAddress
    /** "sighash_address {address} is not a valid sighash address" */
    | InvalidSighashAddress(address: Tx.Address)
    /** An I/O error of the configuration loader; `item` names the file or the missing key, or
        is the operating system's message for a failed read. */
    | Io(kind: IoKind, item: string)
    /** "Fail to parse {key}: {detail}", of kind `InvalidData`: the key is present but its value
        is rejected by the parser. */
    | Unparsable(key: string, detail: string)
}
