/** The signing commands of src/sign.rs. The SDK signs (`Sdk.signTx`); what this module models
    is how the tool decides, from the bytes of the lock field before and after, whether a
    round succeeded, how many multisig signatures are still missing, and what is written back. */
module Sign {
  import opened Bytes
  import opened Wrappers
  import opened Errors
  import opened Tx
  import opened ArgParser
  import opened Omnilock
  import opened Envelope

  /** Width of one recoverable secp256k1 signature slot. */
  const SlotLen: nat := 65

  // ---------------------------------------------------------------------------------------
  // Signature slots

  /** The slot scan of `sign_multisig_tx` slices 65 bytes at a time from `offset` to the end; it
      stays inside the signature only when the remaining length is a multiple of 65. */
  predicate SlotsAligned(sig: Bytes, offset: nat) {
    offset >= |sig| || (|sig| - offset) % SlotLen == 0
  }

  function SlotCount(sig: Bytes, offset: nat): nat {
    if offset >= |sig| then 0 else (|sig| - offset) / SlotLen
  }

  /** The signature bytes from `offset` on, cut into consecutive 65-byte windows. */
  function Windows(sig: Bytes, offset: nat): (w: seq<Bytes>)
    requires SlotsAligned(sig, offset)
    ensures |w| == SlotCount(sig, offset)
    ensures forall k :: 0 <= k < |w| ==>
      offset + SlotLen * k + SlotLen <= |sig| && w[k] == sig[offset + SlotLen * k .. offset + SlotLen * k + SlotLen]
  {
    var n := SlotCount(sig, offset);
    seq(n, k requires 0 <= k < n => sig[offset + SlotLen * k .. offset + SlotLen * k + SlotLen])
  }

  /** The windows from `idx` are the window at `idx` followed by the windows from `idx + 65`. */
  lemma WindowsStep(sig: Bytes, idx: nat)
    requires SlotsAligned(sig, idx) && idx < |sig|
    ensures idx + SlotLen <= |sig| && SlotsAligned(sig, idx + SlotLen)
    ensures Windows(sig, idx) == [sig[idx..idx + SlotLen]] + Windows(sig, idx + SlotLen)
  {
    var w := Windows(sig, idx);
    var w' := Windows(sig, idx + SlotLen);
    assert |w| == |w'| + 1;
    forall k | 0 <= k < |w'|
      ensures w[k + 1] == w'[k]
    {
      assert idx + SlotLen * (k + 1) == idx + SlotLen + SlotLen * k;
    }
    assert w == [w[0]] + w';
  }

  /** The scan loop as a recursion: the number of all-zero slots from `idx` to the end. */
  function EmptySlotCount(sig: Bytes, idx: nat): (n: nat)
    requires SlotsAligned(sig, idx)
    ensures n <= SlotCount(sig, idx)
    decreases |sig| - idx
  {
    if idx >= |sig| then 0
    else
      assert SlotCount(sig, idx) == SlotCount(sig, idx + SlotLen) + 1;
      (if sig[idx..idx + SlotLen] == Zeros(SlotLen) then 1 else 0) + EmptySlotCount(sig, idx + SlotLen)
  }

  /** The count is the number of all-zero 65-byte windows between the offset and the end. */
  lemma {:induction false} EmptySlotCountIsZeroWindows(sig: Bytes, idx: nat)
    requires SlotsAligned(sig, idx)
    ensures EmptySlotCount(sig, idx) == multiset(Windows(sig, idx))[Zeros(SlotLen)]
    decreases |sig| - idx
  {
    if idx < |sig| {
      WindowsStep(sig, idx);
      EmptySlotCountIsZeroWindows(sig, idx + SlotLen);
      assert multiset(Windows(sig, idx)) == multiset([sig[idx..idx + SlotLen]]) + multiset(Windows(sig, idx + SlotLen));
    } else {
      assert Windows(sig, idx) == [];
    }
  }

  /** The scan loop of `sign_multisig_tx` (src/sign.rs:190-196), as written: count the all-zero
      65-byte slices from `offset` to the end. */
  method CountEmptySlots(sig: Bytes, offset: nat) returns (emptyN: nat)
    requires SlotsAligned(sig, offset)
    ensures emptyN == EmptySlotCount(sig, offset)
    ensures emptyN == multiset(Windows(sig, offset))[Zeros(SlotLen)]
    ensures emptyN <= SlotCount(sig, offset)
  {
    var idx := offset;
    emptyN := 0;
    while idx < |sig|
      invariant offset <= idx
      invariant SlotsAligned(sig, idx)
      invariant emptyN + EmptySlotCount(sig, idx) == EmptySlotCount(sig, offset)
      decreases |sig| - idx
    {
      if sig[idx..idx + SlotLen] == Zeros(SlotLen) {
        emptyN := emptyN + 1;
      }
      idx := idx + SlotLen;
    }
    EmptySlotCountIsZeroWindows(sig, offset);
    assert multiset(Windows(sig, offset))[Zeros(SlotLen)] <= |multiset(Windows(sig, offset))|;
  }

  /** A placeholder signature area (all zero) counts every slot as empty. */
  lemma {:induction false} PlaceholderSlotsAllEmpty(sig: Bytes, offset: nat)
    requires SlotsAligned(sig, offset)
    requires forall i :: offset <= i < |sig| ==> sig[i] == 0
    ensures EmptySlotCount(sig, offset) == SlotCount(sig, offset)
    decreases |sig| - offset
  {
    if offset < |sig| {
      WindowsStep(sig, offset);
      assert sig[offset..offset + SlotLen] == Zeros(SlotLen);
      PlaceholderSlotsAllEmpty(sig, offset + SlotLen);
    }
  }

  /** `sig` with slot `k` (counted from `offset`) overwritten by the 65 bytes `s`. */
  function FillSlot(sig: Bytes, offset: nat, k: nat, s: Bytes): (r: Bytes)
    requires SlotsAligned(sig, offset) && k < SlotCount(sig, offset) && |s| == SlotLen
    ensures |r| == |sig|
  {
    var at := offset + SlotLen * k;
    sig[..at] + s + sig[at + SlotLen..]
  }

  /** Filling one slot changes only that window. */
  lemma FillSlotWindows(sig: Bytes, offset: nat, k: nat, s: Bytes)
    requires SlotsAligned(sig, offset) && k < SlotCount(sig, offset) && |s| == SlotLen
    ensures SlotsAligned(FillSlot(sig, offset, k, s), offset)
    ensures Windows(FillSlot(sig, offset, k, s), offset) == Windows(sig, offset)[k := s]
  {
    var r := FillSlot(sig, offset, k, s);
    var at := offset + SlotLen * k;
    var w := Windows(sig, offset);
    var w' := Windows(r, offset);
    forall j | 0 <= j < |w|
      ensures w'[j] == w[k := s][j]
    {
      var lo := offset + SlotLen * j;
      if j < k {
        assert lo + SlotLen <= at;
        assert r[lo..lo + SlotLen] == sig[lo..lo + SlotLen];
      } else if j > k {
        assert at + SlotLen <= lo;
        assert r[lo..lo + SlotLen] == sig[lo..lo + SlotLen];
      } else {
        assert r[lo..lo + SlotLen] == s;
      }
    }
  }

  /** Signing an empty slot lowers the empty count by exactly one; re-signing a filled slot with
      another signature leaves it unchanged. Other slots are never affected. */
  lemma {:induction false} FillSlotCount(sig: Bytes, offset: nat, k: nat, s: Bytes)
    requires SlotsAligned(sig, offset) && k < SlotCount(sig, offset) && |s| == SlotLen
    requires s != Zeros(SlotLen)
    ensures SlotsAligned(FillSlot(sig, offset, k, s), offset)
    ensures Windows(sig, offset)[k] == Zeros(SlotLen) ==>
      EmptySlotCount(FillSlot(sig, offset, k, s), offset) == EmptySlotCount(sig, offset) - 1
    ensures Windows(sig, offset)[k] != Zeros(SlotLen) ==>
      EmptySlotCount(FillSlot(sig, offset, k, s), offset) == EmptySlotCount(sig, offset)
  {
    FillSlotWindows(sig, offset, k, s);
    EmptySlotCountIsZeroWindows(sig, offset);
    EmptySlotCountIsZeroWindows(FillSlot(sig, offset, k, s), offset);
  }

  // ---------------------------------------------------------------------------------------
  // Multisig progress

  /** What a successful signing command prints. */
  datatype Report =
    /** "> transaction signed!" */
    | TxSigned
    /** "> {count} more signature(s) need !" */
    | MoreSignaturesNeeded(count: nat)
    /** "> {count} groups left to sign!" */
    | GroupsLeftToSign(count: nat)

  /** Classification of the empty-slot count against the multisig threshold: none empty is
      done, up to `threshold` empty is reported as still needed, more is an error. */
  function ClassifyEmptySlots(emptyN: nat, threshold: U8): (r: Result<Report, Error>)
    ensures r == Success(TxSigned) <==> emptyN == 0
    ensures r.Success? <==> emptyN <= threshold
    ensures 0 < emptyN <= threshold ==> r == Success(MoreSignaturesNeeded(emptyN))
    ensures threshold < emptyN ==> r == Failure(TooManyEmptySlots(threshold, emptyN))
  {
    if emptyN == 0 then Success(TxSigned)
    else if emptyN <= threshold then Success(MoreSignaturesNeeded(emptyN))
    else Failure(TooManyEmptySlots(threshold, emptyN))
  }

  /** Where the signature slots start inside the witness lock's signature field: after the
      multisig config's witness data, and after the open-transaction signature data when the
      config is in opentx mode and holds an opentx input. */
  function SignatureOffset(sdk: Sdk, cfg: OmniLockConfig, m: MultisigConfig): (idx: nat)
    ensures idx >= |sdk.multisigWitnessData(m)|
    ensures !(cfg.opentxMode && cfg.opentxInput.Some?) ==> idx == |sdk.multisigWitnessData(m)|
    ensures cfg.opentxMode && cfg.opentxInput.Some? ==>
      idx == |sdk.multisigWitnessData(m)| + sdk.opentxSigDataLen(cfg.opentxInput.value)
  {
    var idx := |sdk.multisigWitnessData(m)|;
    if cfg.opentxMode then
      match cfg.opentxInput
      case Some(w) => idx + sdk.opentxSigDataLen(w)
      case None => idx
    else idx
  }

  /** The round changed the lock field, kept its placeholder length, and left no group locked:
      only then are the slots counted. */
  predicate CountsSlots(prev: Bytes, lock: Bytes, zero: Bytes, groups: seq<ScriptGroup>) {
    |lock| == |zero| && lock != prev && |groups| == 0
  }

  /** When the slots are counted, the scan stays inside the signature (src/sign.rs:192 slices
      past the end, and panics, otherwise). */
  predicate ScanInBounds(sdk: Sdk, cfg: OmniLockConfig, lock: Bytes) {
    cfg.multisig.Some? && sdk.witnessLockSignature(lock).Success? && sdk.witnessLockSignature(lock).value.Some? ==>
      SlotsAligned(sdk.witnessLockSignature(lock).value.value, SignatureOffset(sdk, cfg, cfg.multisig.value))
  }

  /** The decision of `sign_multisig_tx` after signing (src/sign.rs:172-211). `prev` and `lock` are the
      lock field before and after the round, `zero` the placeholder lock of the config. */
  function MultisigDecision(sdk: Sdk, cfg: OmniLockConfig, prev: Bytes, lock: Bytes, zero: Bytes,
                            groups: seq<ScriptGroup>): (r: Result<Report, Error>)
    requires CountsSlots(prev, lock, zero, groups) ==> ScanInBounds(sdk, cfg, lock)
    ensures |lock| != |zero| ==> r == Failure(FailedToSign)
    ensures lock == prev && lock == zero ==> r == Failure(FailedToSign)
    ensures lock == prev && |lock| == |zero| && lock != zero ==> r == Failure(SignedTwice)
    ensures |lock| == |zero| && lock != prev && |groups| > 0 ==> r == Success(GroupsLeftToSign(|groups|))
    ensures (&& CountsSlots(prev, lock, zero, groups) && cfg.multisig.Some?
             && sdk.witnessLockSignature(lock).Success? && sdk.witnessLockSignature(lock).value.Some?) ==>
      var sig := sdk.witnessLockSignature(lock).value.value;
      var offset := SignatureOffset(sdk, cfg, cfg.multisig.value);
      r == ClassifyEmptySlots(multiset(Windows(sig, offset))[Zeros(SlotLen)], cfg.multisig.value.threshold)
    ensures r.Success? && !r.value.GroupsLeftToSign? ==> CountsSlots(prev, lock, zero, groups)
    ensures r.Success? && r.value.GroupsLeftToSign? ==> |groups| > 0
    ensures CountsSlots(prev, lock, zero, groups) && cfg.multisig.None? ==> r == Failure(Panic("multisig_config"))
    ensures CountsSlots(prev, lock, zero, groups) && cfg.multisig.Some? && sdk.witnessLockSignature(lock).Failure? ==>
      r == Failure(sdk.witnessLockSignature(lock).error)
    ensures CountsSlots(prev, lock, zero, groups) && cfg.multisig.Some? && sdk.witnessLockSignature(lock) == Success(None) ==>
      r == Failure(Panic("witness lock signature"))
  {
    if |lock| == |zero| && lock != prev then
      if |groups| == 0 then
        match cfg.multisig
        case None => Failure(Panic("multisig_config"))
        case Some(m) =>
          var parsed :- sdk.witnessLockSignature(lock);
          match parsed
          case None => Failure(Panic("witness lock signature"))
          case Some(sig) =>
            var offset := SignatureOffset(sdk, cfg, m);
            EmptySlotCountIsZeroWindows(sig, offset);
            ClassifyEmptySlots(EmptySlotCount(sig, offset), m.threshold)
      else
        Success(GroupsLeftToSign(|groups|))
    else if lock == zero || |zero| != |lock| then
      Failure(FailedToSign)
    else
      Failure(SignedTwice)
  }

  /** "Signed" means no slot is left empty, and the remaining-signature report is exactly the
      number of empty slots, never more than the threshold. */
  lemma MultisigReportMeaning(sdk: Sdk, cfg: OmniLockConfig, prev: Bytes, lock: Bytes, zero: Bytes,
                              groups: seq<ScriptGroup>)
    requires CountsSlots(prev, lock, zero, groups) ==> ScanInBounds(sdk, cfg, lock)
    requires MultisigDecision(sdk, cfg, prev, lock, zero, groups).Success?
    requires !MultisigDecision(sdk, cfg, prev, lock, zero, groups).value.GroupsLeftToSign?
    ensures cfg.multisig.Some? && sdk.witnessLockSignature(lock).Success? && sdk.witnessLockSignature(lock).value.Some?
    ensures var sig := sdk.witnessLockSignature(lock).value.value;
      var offset := SignatureOffset(sdk, cfg, cfg.multisig.value);
      var empty := multiset(Windows(sig, offset))[Zeros(SlotLen)];
      && empty <= cfg.multisig.value.threshold
      && (MultisigDecision(sdk, cfg, prev, lock, zero, groups).value == TxSigned <==> empty == 0)
      && (empty > 0 ==> MultisigDecision(sdk, cfg, prev, lock, zero, groups).value == MoreSignaturesNeeded(empty))
  {
  }

  /** A placeholder signature area of two slots behind a `header` of any length. */
  function TwoSlotPlaceholder(header: Bytes): Bytes {
    header + Zeros(2 * SlotLen)
  }

  /** A 2-of-2 multisig from its placeholder: two missing signatures are reported, then one
      after the first slot is signed, then the transaction is signed after the second. */
  lemma {:induction false} TwoOfTwoProgress(header: Bytes, s0: Bytes, s1: Bytes)
    requires |s0| == SlotLen && |s1| == SlotLen && s0 != Zeros(SlotLen) && s1 != Zeros(SlotLen)
    ensures SlotsAligned(TwoSlotPlaceholder(header), |header|) && SlotCount(TwoSlotPlaceholder(header), |header|) == 2
    ensures ClassifyEmptySlots(EmptySlotCount(TwoSlotPlaceholder(header), |header|), 2) == Success(MoreSignaturesNeeded(2))
    ensures SlotsAligned(FillSlot(TwoSlotPlaceholder(header), |header|, 0, s0), |header|)
    ensures SlotCount(FillSlot(TwoSlotPlaceholder(header), |header|, 0, s0), |header|) == 2
    ensures ClassifyEmptySlots(EmptySlotCount(FillSlot(TwoSlotPlaceholder(header), |header|, 0, s0), |header|), 2)
      == Success(MoreSignaturesNeeded(1))
    ensures SlotsAligned(FillSlot(FillSlot(TwoSlotPlaceholder(header), |header|, 0, s0), |header|, 1, s1), |header|)
    ensures ClassifyEmptySlots(EmptySlotCount(FillSlot(FillSlot(TwoSlotPlaceholder(header), |header|, 0, s0), |header|, 1, s1), |header|), 2)
      == Success(TxSigned)
  {
    var off := |header|;
    var p := TwoSlotPlaceholder(header);
    assert SlotCount(p, off) == 2;
    PlaceholderSlotsAllEmpty(p, off);
    var w := Windows(p, off);
    assert w[0] == p[off..off + SlotLen];
    assert p[off..off + SlotLen] == Zeros(SlotLen);
    FillSlotCount(p, off, 0, s0);
    var one := FillSlot(p, off, 0, s0);
    FillSlotWindows(p, off, 0, s0);
    assert Windows(one, off)[1] == w[1];
    assert w[1] == p[off + SlotLen..off + 2 * SlotLen];
    assert p[off + SlotLen..off + 2 * SlotLen] == Zeros(SlotLen);
    FillSlotCount(one, off, 1, s1);
  }

  // ---------------------------------------------------------------------------------------
  // The commands

  /** What a successful command writes to the envelope file, and what it prints. */
  datatype Written = Written(info: TxInfo, report: Report)

  /** The lock field of witness 0: `witnesses().get(0).unwrap()`, parsed as `WitnessArgs`
      (an error is reported), with `lock().to_opt().unwrap()`. */
  function LockField(sdk: Sdk, tx: Transaction): (r: Result<Bytes, Error>)
    ensures |tx.witnesses| == 0 ==> r == Failure(Panic("witness 0"))
    ensures r.Success? <==> |tx.witnesses| > 0 && sdk.witnessArgsLock(tx.witnesses[0]).Success?
                            && sdk.witnessArgsLock(tx.witnesses[0]).value.Some?
    ensures r.Success? ==> sdk.witnessArgsLock(tx.witnesses[0]) == Success(Some(r.value))
    ensures |tx.witnesses| > 0 && sdk.witnessArgsLock(tx.witnesses[0]).Failure? ==>
      r == Failure(sdk.witnessArgsLock(tx.witnesses[0]).error)
    ensures |tx.witnesses| > 0 && sdk.witnessArgsLock(tx.witnesses[0]) == Success(None) ==>
      r == Failure(Panic("witness lock"))
  {
    if |tx.witnesses| == 0 then Failure(Panic("witness 0"))
    else
      var lock :- sdk.witnessArgsLock(tx.witnesses[0]);
      match lock
      case None => Failure(Panic("witness lock"))
      case Some(l) => Success(l)
  }

  /** The key of `sign_pubkey_hash_tx`: an explicit private key wins over a keystore account
      (`exportKey` prompts for the password and decrypts); neither is an error. */
  function SelectKey(senderKey: Option<PrivkeyWrapper>, fromAccount: Option<H160>,
                     exportKey: H160 -> Result<PrivkeyWrapper, Error>): (r: Result<PrivkeyWrapper, Error>)
    ensures senderKey.Some? ==> r == Success(senderKey.value)
    ensures senderKey.None? && fromAccount.Some? ==> r == exportKey(fromAccount.value)
    ensures senderKey.None? && fromAccount.None? ==> r == Failure(MissingKeySource)
    ensures r.Success? <==> senderKey.Some? || (fromAccount.Some? && exportKey(fromAccount.value).Success?)
  {
    match senderKey
    case Some(k) => Success(k)
    case None =>
      match fromAccount
      case Some(account) => exportKey(account)
      case None => Failure(MissingKeySource)
  }

  /** The round of a single-key scheme is a success when the lock field is no longer the
      placeholder and no script group is left locked. */
  predicate SingleKeySigned(lock: Bytes, zero: Bytes, groups: seq<ScriptGroup>) {
    lock != zero && |groups| == 0
  }

  /** The signing round of a single key succeeded, its lock field and the placeholder can be
      read, and the round passes `SingleKeySigned`. */
  predicate SingleKeyRoundSigned(sdk: Sdk, info: TxInfo, key: PrivkeyWrapper) {
    var signed := sdk.signTx(info.transaction, info.omnilockConfig, [key]);
    && signed.Success?
    && LockField(sdk, signed.value.tx).Success?
    && sdk.zeroLock(info.omnilockConfig).Success?
    && SingleKeySigned(LockField(sdk, signed.value.tx).value, sdk.zeroLock(info.omnilockConfig).value, signed.value.stillLocked)
  }

  /** How a single-key round that passed the identity gate ends in failure: the signer's error,
      then the lock read's error, then `zero_lock`'s error are passed on in that order, and a
      round that is read but not `SingleKeySigned` is "Failed to sign the transaction!". */
  predicate SingleKeyRoundFailures(sdk: Sdk, info: TxInfo, key: PrivkeyWrapper, r: Result<Written, Error>) {
    var signed := sdk.signTx(info.transaction, info.omnilockConfig, [key]);
    && (signed.Failure? ==> r == Failure(signed.error))
    && (signed.Success? && LockField(sdk, signed.value.tx).Failure? ==> r == Failure(LockField(sdk, signed.value.tx).error))
    && ((&& signed.Success? && LockField(sdk, signed.value.tx).Success?
         && sdk.zeroLock(info.omnilockConfig).Failure?) ==> r == Failure(sdk.zeroLock(info.omnilockConfig).error))
    && ((&& signed.Success? && LockField(sdk, signed.value.tx).Success? && sdk.zeroLock(info.omnilockConfig).Success?
         && !SingleKeySigned(LockField(sdk, signed.value.tx).value, sdk.zeroLock(info.omnilockConfig).value,
                             signed.value.stillLocked)) ==> r == Failure(FailedToSign))
  }

  /** The shared body of `sign_pubkey_hash_tx` and `sign_ethereum_tx` once the key and its hash
      are known: the key is rejected before any signing unless its hash is the config's auth
      content; after signing, the round must pass `SingleKeySigned`; only then is the envelope
      written, with the config it was read with. */
  function SignSingleKey(sdk: Sdk, info: TxInfo, key: PrivkeyWrapper, hash: H160): (r: Result<Written, Error>)
    ensures info.omnilockConfig.id.authContent != hash ==> r == Failure(HashNotFound(hash))
    ensures r.Success? <==> info.omnilockConfig.id.authContent == hash && SingleKeyRoundSigned(sdk, info, key)
    ensures r.Success? ==>
      r.value == Written(TxInfo(sdk.signTx(info.transaction, info.omnilockConfig, [key]).value.tx, info.omnilockConfig), TxSigned)
    ensures info.omnilockConfig.id.authContent == hash ==> SingleKeyRoundFailures(sdk, info, key, r)
  {
    if info.omnilockConfig.id.authContent != hash then Failure(HashNotFound(hash))
    else
      var signed :- sdk.signTx(info.transaction, info.omnilockConfig, [key]);
      var lock :- LockField(sdk, signed.tx);
      var zero :- sdk.zeroLock(info.omnilockConfig);
      if lock != zero && |signed.stillLocked| == 0 then
        Success(Written(TxInfo(signed.tx, info.omnilockConfig), TxSigned))
      else
        Failure(FailedToSign)
  }

  /** `sign_pubkey_hash_tx`: the key's identity is blake160 of its compressed public key, the
      first 20 bytes of the blake2b-256 digest. */
  function SignPubkeyHashTx(sdk: Sdk, info: TxInfo, senderKey: Option<PrivkeyWrapper>, fromAccount: Option<H160>,
                            exportKey: H160 -> Result<PrivkeyWrapper, Error>): (r: Result<Written, Error>)
    ensures SelectKey(senderKey, fromAccount, exportKey).Failure? ==>
      r == Failure(SelectKey(senderKey, fromAccount, exportKey).error)
    ensures SelectKey(senderKey, fromAccount, exportKey).Success? ==>
      var key := SelectKey(senderKey, fromAccount, exportKey).value;
      var hash: H160 := sdk.blake2b256(sdk.serializedPubkey(key.Deref()))[..20];
      && (info.omnilockConfig.id.authContent != hash ==> r == Failure(HashNotFound(hash)))
      && (r.Success? <==> info.omnilockConfig.id.authContent == hash && SingleKeyRoundSigned(sdk, info, key))
      && (r.Success? ==> r.value == Written(TxInfo(sdk.signTx(info.transaction, info.omnilockConfig, [key]).value.tx,
                                                   info.omnilockConfig), TxSigned))
      && (info.omnilockConfig.id.authContent == hash ==> SingleKeyRoundFailures(sdk, info, key, r))
  {
    var key :- SelectKey(senderKey, fromAccount, exportKey);
    SignSingleKey(sdk, info, key, sdk.blake2b256(sdk.serializedPubkey(key.Deref()))[..20])
  }

  /** `sign_ethereum_tx`: the key's identity is keccak160 of its uncompressed public key. */
  function SignEthereumTx(sdk: Sdk, info: TxInfo, senderKey: PrivkeyWrapper): (r: Result<Written, Error>)
    ensures info.omnilockConfig.id.authContent != sdk.keccak160(sdk.ethereumPubkey(senderKey.Deref())) ==>
      r == Failure(HashNotFound(sdk.keccak160(sdk.ethereumPubkey(senderKey.Deref()))))
    ensures r.Success? <==>
      && info.omnilockConfig.id.authContent == sdk.keccak160(sdk.ethereumPubkey(senderKey.Deref()))
      && SingleKeyRoundSigned(sdk, info, senderKey)
    ensures r.Success? ==>
      r.value == Written(TxInfo(sdk.signTx(info.transaction, info.omnilockConfig, [senderKey]).value.tx,
                                info.omnilockConfig), TxSigned)
    ensures info.omnilockConfig.id.authContent == sdk.keccak160(sdk.ethereumPubkey(senderKey.Deref())) ==>
      SingleKeyRoundFailures(sdk, info, senderKey, r)
  {
    SignSingleKey(sdk, info, senderKey, sdk.keccak160(sdk.ethereumPubkey(senderKey.Deref())))
  }

  /** The lock fields of the round and the placeholder, when all of them can be read. */
  predicate MultisigFieldsRead(sdk: Sdk, info: TxInfo, keys: seq<PrivkeyWrapper>) {
    var signed := sdk.signTx(info.transaction, info.omnilockConfig, keys);
    && LockField(sdk, info.transaction).Success?
    && signed.Success?
    && LockField(sdk, signed.value.tx).Success?
    && sdk.zeroLock(info.omnilockConfig).Success?
  }

  /** The precondition of `sign_multisig_tx`: if the round reaches the slot scan, the scan stays
      inside the signature. */
  predicate MultisigScanSafe(sdk: Sdk, info: TxInfo, keys: seq<PrivkeyWrapper>) {
    MultisigFieldsRead(sdk, info, keys) ==>
      var signed := sdk.signTx(info.transaction, info.omnilockConfig, keys).value;
      var lock := LockField(sdk, signed.tx).value;
      var zero := sdk.zeroLock(info.omnilockConfig).value;
      CountsSlots(LockField(sdk, info.transaction).value, lock, zero, signed.stillLocked) ==>
        ScanInBounds(sdk, info.omnilockConfig, lock)
  }

  /** `sign_multisig_tx`: the lock field is read before and after the round, the decision is
      taken on those bytes, and only a successful decision writes the signed transaction back
      with the config it was read with. */
  function SignMultisigTx(sdk: Sdk, info: TxInfo, keys: seq<PrivkeyWrapper>): (r: Result<Written, Error>)
    requires MultisigScanSafe(sdk, info, keys)
    ensures LockField(sdk, info.transaction).Failure? ==> r == Failure(LockField(sdk, info.transaction).error)
    ensures LockField(sdk, info.transaction).Success? ==>
      var signed := sdk.signTx(info.transaction, info.omnilockConfig, keys);
      && (signed.Failure? ==> r == Failure(signed.error))
      && (signed.Success? && LockField(sdk, signed.value.tx).Failure? ==> r == Failure(LockField(sdk, signed.value.tx).error))
      && ((&& signed.Success? && LockField(sdk, signed.value.tx).Success?
           && sdk.zeroLock(info.omnilockConfig).Failure?) ==> r == Failure(sdk.zeroLock(info.omnilockConfig).error))
    ensures r.Success? ==> MultisigFieldsRead(sdk, info, keys)
    ensures r.Success? ==>
      var signed := sdk.signTx(info.transaction, info.omnilockConfig, keys).value;
      && r.value.info == TxInfo(signed.tx, info.omnilockConfig)
      && Success(r.value.report) == MultisigDecision(sdk, info.omnilockConfig, LockField(sdk, info.transaction).value,
           LockField(sdk, signed.tx).value, sdk.zeroLock(info.omnilockConfig).value, signed.stillLocked)
    ensures MultisigFieldsRead(sdk, info, keys) ==>
      var signed := sdk.signTx(info.transaction, info.omnilockConfig, keys).value;
      var d := MultisigDecision(sdk, info.omnilockConfig, LockField(sdk, info.transaction).value,
                 LockField(sdk, signed.tx).value, sdk.zeroLock(info.omnilockConfig).value, signed.stillLocked);
      && (d.Failure? ==> r == Failure(d.error))
      && (d.Success? ==> r == Success(Written(TxInfo(signed.tx, info.omnilockConfig), d.value)))
    ensures r.Success? <==>
      && MultisigFieldsRead(sdk, info, keys)
      && MultisigDecision(sdk, info.omnilockConfig, LockField(sdk, info.transaction).value,
           LockField(sdk, sdk.signTx(info.transaction, info.omnilockConfig, keys).value.tx).value,
           sdk.zeroLock(info.omnilockConfig).value,
           sdk.signTx(info.transaction, info.omnilockConfig, keys).value.stillLocked).Success?
  {
    var prev :- LockField(sdk, info.transaction);
    var signed :- sdk.signTx(info.transaction, info.omnilockConfig, keys);
    var lock :- LockField(sdk, signed.tx);
    var zero :- sdk.zeroLock(info.omnilockConfig);
    var report :- MultisigDecision(sdk, info.omnilockConfig, prev, lock, zero, signed.stillLocked);
    Success(Written(TxInfo(signed.tx, info.omnilockConfig), report))
  }

  /** The `sign` sub-commands. */
  datatype SignCmd =
    | PubkeyHashCmd(senderKey: Option<PrivkeyWrapper>, fromAccount: Option<H160>)
    | EthereumCmd(key: PrivkeyWrapper)
    | MultisigCmd(keys: seq<PrivkeyWrapper>)

  /** `sign_tx`: each sub-command goes to its own signing function. */
  function SignTx(cmd: SignCmd, sdk: Sdk, info: TxInfo, exportKey: H160 -> Result<PrivkeyWrapper, Error>)
    : (r: Result<Written, Error>)
    requires cmd.MultisigCmd? ==> MultisigScanSafe(sdk, info, cmd.keys)
    ensures cmd.PubkeyHashCmd? ==> r == SignPubkeyHashTx(sdk, info, cmd.senderKey, cmd.fromAccount, exportKey)
    ensures cmd.EthereumCmd? ==> r == SignEthereumTx(sdk, info, cmd.key)
    ensures cmd.MultisigCmd? ==> r == SignMultisigTx(sdk, info, cmd.keys)
  {
    match cmd
    case PubkeyHashCmd(senderKey, fromAccount) => SignPubkeyHashTx(sdk, info, senderKey, fromAccount, exportKey)
    case EthereumCmd(key) => SignEthereumTx(sdk, info, key)
    case MultisigCmd(keys) => SignMultisigTx(sdk, info, keys)
  }
}
