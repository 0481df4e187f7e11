# omnilock-cli signing core, modelled in Dafny

omnilock-cli is a command-line tool that builds CKB transactions locked by the OmniLock script
and signs them, possibly over several sessions, by pubkey hash, Ethereum-style key or M-of-N
multisig. Between commands the work lives in an envelope file (`TxInfo`: the transaction plus
the omnilock config). The chain SDK (`ckb_sdk`) does the signing, witness encoding and RPC.
This model covers the tool's own decision logic on top of it:

- **Sign** (src/sign.rs): the identity gate before signing (blake160 or keccak160 of the key
  against the config's auth content), the single-key success rule, and the multisig decision:
  compare the lock field before and after the round, count the all-zero 65-byte signature
  slots after the multisig-config (and open-transaction) header, and classify the count
  against the threshold. The method `CountEmptySlots` is the scan loop as written; its result
  is proved equal to the multiplicity of the all-zero window in the 65-byte windows of the
  signature area.
- **BuildAddr** (src/build_addr.rs): multisig config validation and the `build-address`
  dispatch.
- **Signer** (src/signer.rs): `CommonSigner`'s first-match dispatch over signing backends.
- **Util**, **ArgParser** (src/util.rs, src/arg_parser.rs): `0x`/`0X` prefix stripping, the hex
  argument parsers and the private-key parser.
- **Config** (src/config.rs): `~` expansion, required and defaulted YAML keys, and
  `ConfigContext::parse` over an abstract file system.
- **Add** (src/add.rs): the `add-output` and `add-input` envelope edits.

Supporting modules: `Wrappers` (Option, Result), `Bytes` (bytes, `H160`, `H256`, `U8`), `Errors`
(the errors the tool reports), `Tx` (the transaction record), `Omnilock` (the SDK boundary) and
`Envelope` (`TxInfo`).

Boundaries. SDK functions, hashes, secp256k1 and the keystore are fields of the `Omnilock.Sdk`
record or function parameters, and stay uninterpreted: `zero_lock`, `to_witness_data`,
`opentx_sig_data_len`, the `WitnessArgs` and `OmniLockWitnessLock` parsers, `blake2b_256`,
`keccak160`, public-key derivation, and `sign_tx_` (RPC cell-dep lookup plus `unlock_tx`). Node
queries are the `Add.Chain` record. The file system is `Config.FileState`, and the home
directory is an `Option`. Each `unwrap()` on a missing value becomes an `Errors.Panic` result:
the process aborts and writes nothing. The signing and editing commands return a `Result`
whose success value is the envelope written back to the file (`Add.HandleAddOutput` cannot fail
and returns the envelope directly); on an error nothing is written. `BuildOmnilockAddr`'s success
value is what the command prints.

Behaviour of the code worth knowing when reading the contracts:
- More empty slots than the threshold is an error raised when the slots are counted
  (src/sign.rs:199-203).
- In multisig signing, a lock field whose length differs from the placeholder is reported as
  "Failed to sign the transaction!" (src/sign.rs:207-208). The single-key commands only compare
  the lock field with the placeholder: a lock of another length that differs from it, with no
  group left locked, counts as signed (src/sign.rs:112-113, 144-145).
- When the lock field changed and kept the placeholder's length but script groups are still
  locked, the code reports their count and writes the envelope (src/sign.rs:173, 204-206); an
  unchanged or resized lock field fails first (src/sign.rs:207-211).
- Reaching the slot count without a multisig config, or with a witness lock that carries no
  signature, panics (src/sign.rs:175, 182); an unparsable witness lock is an error
  (src/sign.rs:177).
- Multisig signing checks no identity before signing (src/sign.rs:159-169).
- The number of slots is not fixed by the tool: it counts 65-byte windows from the offset to the
  end of the signature field, whatever length the SDK gave it.

## Model

| member | source | states |
|---|---|---|
| Util.StripPrefix0x | src/util.rs:1-7 | the result is a suffix of the input, of length len or len-2, and it is shorter exactly when the input starts with "0x" or "0X" |
| Util.StripUndoesPrefix | src/util.rs:2-3 | stripping "0x"+t or "0X"+t gives back t, for every t |
| Util.StripWithoutPrefixIsIdentity | src/util.rs:4-5 | an input without a marker is returned unchanged |
| Util.StripRemovesOnlyOnePrefix | src/util.rs:2-3 | only one marker is removed: "0x0xab" gives "0xab", and a second call gives "ab", so the function is not idempotent |
| ArgParser.DropHexMarker | src/arg_parser.rs:14-18 | the macro's inline prefix handling returns a suffix of the input, two characters shorter exactly when it starts with "0x" or "0X" |
| ArgParser.DropHexMarkerIsStripPrefix0x | src/arg_parser.rs:14-18 | the prefix handling written inside the parser macro equals `strip_prefix_0x` on every input |
| ArgParser.ParseHexArg | src/arg_parser.rs:13-20 | H160/H256 parsing succeeds exactly when `from_str` accepts the text with at most one marker stripped; it returns that value, or `from_str`'s error |
| ArgParser.ParsePublicKey | src/arg_parser.rs:28-35 | public-key parsing has the same marker handling and propagates `from_str`'s error |
| ArgParser.ParsePrivkey | src/arg_parser.rs:59-63 | a private key is parsed as H256 first, then passed to `SecretKey::from_slice`; each of the two failures is reported with its own error |
| ArgParser.ParsedKeyDerefs | src/arg_parser.rs:48-53 | dereferencing a parsed key wrapper gives exactly the key `from_slice` built |
| ArgParser.PrivkeyMarkerForms | src/arg_parser.rs:60-61 | for every t that does not itself start with a marker, "0x"+t, "0X"+t and t parse to the same private key or the same error |
| Config.TrimLeadingSlashes | src/config.rs:69-71 | the input is some run of "/" followed by the result, and the result does not start with "/" |
| Config.TrimAfterSlashes | src/config.rs:70 | trimming does not depend on how many leading "/" there are |
| Config.PushShape | src/config.rs:73 | pushing an absolute component replaces the directory; a relative one is appended after the directory, with one "/" between them when the directory is non-empty |
| Config.ExpandHomeDir | src/config.rs:66-78 | a path not starting with "~" is unchanged; "~" + slashes + rest (with rest not starting with "/") becomes home pushed with rest; a missing home directory is the `home_dir().unwrap()` panic |
| Config.ExpandIgnoresSeparatorsAfterTilde | src/config.rs:67-74 | "~" + k slashes + rest expands the same as "~" + rest, for every k |
| Config.ExpandExamples | src/config.rs:66-77 | "~a" and "~///a" expand to "/home/u/a"; "/etc/a" stays as it is |
| Config.TryStr | src/config.rs:20-30 | a required string key succeeds exactly when the key holds a string, and yields that string; otherwise an InvalidData error naming the key |
| Config.TryStrOr | src/config.rs:32-38 | a defaulted string key yields the key's string when present, the default otherwise |
| Config.TryI64 | src/config.rs:41-53 | a required integer key succeeds exactly when the key holds an integer; otherwise an InvalidData error naming the key |
| Config.TryI64Or | src/config.rs:54-60 | a defaulted integer key yields the key's integer when present, the default otherwise |
| Config.DefaultedAgreesWithRequired | src/config.rs:19-60 | the defaulted form gives the required form's value when that succeeds, and the default exactly when it fails |
| Config.I64AsUsize | src/config.rs:137 | `as usize` is the two's-complement reinterpretation modulo 2^64 |
| Config.Parse | src/config.rs:95-146 | a missing file gives NotFound, a non-file InvalidInput, a failed read its own kind and message, an undecodable file or no YAML document InvalidData; a missing `omnilock_tx_hash` or `omnilock_index` is InvalidData naming the key, an unparsable hash its own parse error; a first document with a string hash that parses and an integer index always succeeds, and then the hash is the parsed `omnilock_tx_hash`, the index is the `omnilock_index` integer cast to usize, and the endpoints are the defaulted lookups |
| Config.DefaultEndpoints | src/config.rs:138-139 | without `ckb_rpc` and `ckb_indexer` keys the endpoints are http://127.0.0.1:8114 and http://127.0.0.1:8116 |
| Signer.FirstMatchFrom | src/signer.rs:14-19 | the loop returns the first position whose signer accepts the id, or none when no signer does |
| Signer.GetSigner | src/signer.rs:13-20 | `get_signer` returns the first signer in list order that accepts the id, and nothing exactly when none accepts it |
| Signer.MatchId | src/signer.rs:24-26 | `match_id` is true exactly when some inner signer accepts the id |
| Signer.Sign | src/signer.rs:28-37 | with no accepting signer the result is IdNotFound; otherwise it is the first accepting signer's result on the same arguments |
| Signer.FirstMatchUnique | src/signer.rs:14-18 | the first match is unique, so dispatch is deterministic |
| Signer.EmptySignerRejectsAll | src/signer.rs:13-20 | with no signers no id matches and signing always gives IdNotFound |
| Signer.SingletonDelegates | src/signer.rs:28-37 | a one-signer list matches and signs exactly as that signer, except that an unknown id gives IdNotFound |
| Signer.AppendKeepsPriority | src/signer.rs:14-18 | if position i holds the first signer accepting an id, it still does after more signers are appended, and `get_signer` on the longer list returns that same signer |
| BuildAddr.CollectSighashArgs | src/build_addr.rs:134-144 | succeeds exactly when every address has the sighash code hash, hash type Type and 20-byte args; then the list has the same length and order, each entry being that address's args; otherwise the first invalid address is reported |
| BuildAddr.BuildMultisigConfig | src/build_addr.rs:125-150 | an empty list is rejected; an invalid address is reported; otherwise the hash list, require_first_n and threshold go unchanged to `new_with`, and its error is surfaced |
| BuildAddr.BuiltConfigListsArgsInOrder | src/build_addr.rs:134-149 | a built config comes from `new_with` applied to the addresses' args in input order, and every address was a valid sighash address |
| BuildAddr.BuildMultisigAddr | src/build_addr.rs:72-84 | the omnilock type-hash lookup fails first, then the config's error is reported; it succeeds exactly when both succeed, and then the payload is a Type payload over that type hash with the built config's args |
| BuildAddr.BuildOmnilockAddr | src/build_addr.rs:62-70 | only the Multisig variant builds an address; every other variant reports "not supported" and succeeds |
| Add.AddOutput | src/add.rs:101-105 | one output is appended at the end and one empty data entry after the existing data; inputs, cell deps, header deps and witnesses are unchanged |
| Add.DropLastOutputUndoesAdd | src/add.rs:101-105 | removing the last output and the last data entry gives back the original transaction |
| Add.AddOutputKeepsDataInStep | src/add.rs:101-105 | if outputs and output data have equal length before, they still do after |
| Add.HandleAddOutput | src/add.rs:92-112 | the new output carries the given capacity and the receiver's lock; the omnilock config is written back unchanged |
| Add.AsU32 | src/add.rs:57-60 | the output index is truncated to 32 bits: below 2^32, congruent to the index modulo 2^32, and unchanged when it fits |
| Add.AddLiveCell | src/add.rs:46-77 | succeeds exactly when the cell is live, the genesis block exists and its resolver knows the lock's code hash; then one input with outpoint (tx_hash, index as u32) and since 0 and the resolver's cell dep for the lock's code hash (as a Type script) are appended; outputs, data and witnesses are unchanged; errors of `get_live_cell`, `get_block_by_number` and `from_genesis` are surfaced; a missing genesis block, a dead cell and an unknown lock are each their own `unwrap()` panic |
| Add.AddLiveCellIsUndoable | src/add.rs:76 | dropping the last input and the last cell dep gives back the original transaction |
| Add.HandleAddInput | src/add.rs:79-90 | the written envelope holds the edited transaction and the unchanged omnilock config, and is written exactly when the edit succeeds; otherwise the edit's error is passed on unchanged |
| Sign.Windows | src/sign.rs:191-192 | the signature bytes after the offset are cut into consecutive 65-byte windows |
| Sign.WindowsStep | src/sign.rs:191-195 | the windows from idx are the window at idx followed by the windows from idx+65 |
| Sign.EmptySlotCount | src/sign.rs:190-196 | the scan loop as a recursion: the number of all-zero slots from the offset, never more than the number of slots |
| Sign.EmptySlotCountIsZeroWindows | src/sign.rs:190-196 | the recursive count is the number of all-zero windows from the offset to the end |
| Sign.CountEmptySlots | src/sign.rs:190-196 | the loop returns the number of all-zero 65-byte windows from the offset to the end, which is at most the number of slots |
| Sign.PlaceholderSlotsAllEmpty | src/sign.rs:190-196 | an all-zero signature area counts every slot as empty |
| Sign.FillSlotWindows | src/sign.rs:191-192 | overwriting one slot changes only that window |
| Sign.FillSlotCount | src/sign.rs:190-196 | writing a non-zero signature into an empty slot lowers the count by exactly one; overwriting a filled slot leaves the count unchanged |
| Sign.ClassifyEmptySlots | src/sign.rs:197-203 | 0 empty slots is "signed"; 1..threshold empty slots reports exactly that count as still needed; more than threshold is an error |
| Sign.TwoOfTwoProgress | src/sign.rs:190-203 | a two-slot placeholder asks for two signatures, one signed slot leaves one to collect, and both signed slots report the transaction signed |
| Sign.SignatureOffset | src/sign.rs:184-189 | the offset is the config witness length, plus the opentx sig-data length only in opentx mode with an opentx input |
| Sign.MultisigDecision | src/sign.rs:172-211 | a length different from the zero lock fails; an unchanged lock equal to the zero lock fails; an unchanged non-zero lock gives "signed twice"; a groups-left report happens only when groups remain after a changed lock of the right length; otherwise, without a multisig config or without a signature in the witness lock it panics, an unparsable witness lock passes its error on, and else the result is the classification of the all-zero window count against the threshold |
| Sign.MultisigReportMeaning | src/sign.rs:197-203 | a non-group report means the slots were counted; "signed" means no empty slot; otherwise the report is the empty count, at most the threshold |
| Sign.LockField | src/sign.rs:170-171 | the lock field of witness 0 is read when it exists and parses; a parse error is surfaced, a missing witness 0 is the `get(0).unwrap()` panic and a missing lock the `lock().to_opt().unwrap()` panic |
| Sign.SelectKey | src/sign.rs:91-100 | an explicit key wins over the keystore account; with neither the result is an error; a key is obtained exactly when one is given or the account's export succeeds |
| Sign.SignSingleKey | src/sign.rs:101-123 | a key whose hash differs from the auth content is rejected whatever the signer would do; signing succeeds exactly when the hash matches, the round and both lock reads succeed, the lock differs from the zero lock and no group stays locked; after the gate the signer's, the lock read's and `zero_lock`'s errors are passed on in that order, and a read but unsigned round is "Failed to sign"; success writes the signed transaction with the loaded config |
| Sign.SignPubkeyHashTx | src/sign.rs:87-125 | a key-selection error is reported; with a key, the hash is the first 20 bytes of blake2b-256 of its public key, a mismatch is rejected, and signing succeeds exactly when the hash matches and the round is signed, writing the signed transaction with the loaded config; after the gate the signer's, lock read's and `zero_lock`'s errors are passed on |
| Sign.SignEthereumTx | src/sign.rs:127-157 | a key whose keccak160 differs from the auth content is rejected; signing succeeds exactly when the hash matches and the round is signed, writing the signed transaction with the loaded config; after the gate the signer's, lock read's and `zero_lock`'s errors are passed on |
| Sign.SignMultisigTx | src/sign.rs:159-218 | an unreadable lock field before signing is reported, then the signer's, the second lock read's and `zero_lock`'s errors in that order; the envelope is written exactly when the reads succeed and the decision succeeds, holding the signed transaction, the loaded config and the decision's report; a failed decision's error is reported |
| Sign.SignTx | src/sign.rs:79-85 | each sign sub-command goes to its own signing function |

## Left out

- RPC access (src/client.rs, `build_omnilock_cell_dep`, `send_tx` in src/main.rs) is network I/O. It appears only as parameters: `Sdk.signTx`, the `typeHash` result of `BuildMultisigAddr`, and `Add.Chain`.
- Transaction generation (src/generate.rs) is SDK orchestration with a random salt: cell collection, balancing, placeholder filling and the opentx witness. It is not part of this model.
- JSON and YAML reading and writing, the txinfo export, and the clap dispatch of src/main.rs are library glue. The model covers only what is written (the success value), not the serialisation.
- Keystore decryption and the password prompt (src/keystore.rs) are I/O. They become the `exportKey` parameter.
- secp256k1, blake2b and keccak are uninterpreted functions of `Omnilock.Sdk`.
- Zeroize-on-drop of `PrivkeyWrapper` is memory hygiene with no functional effect.
- SDK internals are `Sdk` fields: `OmniLockWitnessLock` parsing, `zero_lock`, `to_witness_data`, `MultisigConfig::new_with` validation and `unlock_tx`. The number of signature slots the SDK lays out is therefore not stated.
- Sign.CountEmptySlots: requires the signature length after the offset to be a multiple of 65, because src/sign.rs:192 slices past the end (and panics) otherwise. Sign.MultisigDecision and Sign.SignMultisigTx carry the same requirement for the case where the slots are counted.
- Sign.CountEmptySlots: the `u32` counter cannot wrap for any signature that fits in memory, so it is an unbounded `nat`.
- The source does not compile as it stands: src/sign.rs:229-233 calls `build_omnilock_cell_dep` with a `&str` URL and a `usize` index, where src/client.rs:16-20 takes a `&mut CkbRpcClient` and a `u32`; and src/sign.rs:227 and 230-232 read `ConfigContext` fields that src/config.rs:6-16 declares private. The model follows the evident intent: a cell-dep lookup by RPC, and fields readable by the commands.
- The printed address strings, lock hash and JSON report of `build_multisig_addr` are address encoding done by the SDK. The model returns the address payload.
- `handle_config_cmds` and `write_template` are not part of this model. They are file I/O on the template.
- Add.AddLiveCell: states that exactly one cell dep is appended, as `TransactionBuilder::cell_dep` of the ckb-types versions that append unconditionally does; versions that skip a dep already present would keep the dep list unchanged for a second input under the same lock. The crate version is not part of this model.
