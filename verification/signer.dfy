/** `CommonSigner` of src/signer.rs: first-match dispatch over a list of signing backends. */
module Signer {
  import opened Bytes
  import opened Wrappers
  import opened Tx

  /** The SDK's `SignerError`; only `IdNotFound` is raised by the dispatcher itself. */
  datatype SignerError = IdNotFound | Other(detail: string)

  /** A signing backend (`Box<dyn Signer>`): which ids it holds, and how it signs a message. */
  datatype Signer = Signer(
    matchId: Bytes -> bool,
    sign: (Bytes, Bytes, bool, Transaction) -> Result<Bytes, SignerError>)

  datatype CommonSigner = CommonSigner(signers: seq<Signer>)

  /** Position `i` holds the first signer of the list that accepts `id`. */
  predicate IsFirstMatch(signers: seq<Signer>, id: Bytes, i: int) {
    && 0 <= i < |signers|
    && signers[i].matchId(id)
    && forall j :: 0 <= j < i ==> !signers[j].matchId(id)
  }

  predicate AnyMatch(signers: seq<Signer>, id: Bytes) {
    exists i :: 0 <= i < |signers| && signers[i].matchId(id)
  }

  /** The loop of `get_signer`, from position `from` on. */
  function FirstMatchFrom(signers: seq<Signer>, id: Bytes, from: nat): (r: Option<nat>)
    requires from <= |signers|
    requires forall j :: 0 <= j < from ==> !signers[j].matchId(id)
    ensures r.Some? ==> IsFirstMatch(signers, id, r.value)
    ensures r.None? ==> !AnyMatch(signers, id)
    decreases |signers| - from
  {
    if from == |signers| then None
    else if signers[from].matchId(id) then Some(from)
    else FirstMatchFrom(signers, id, from + 1)
  }

  /** `get_signer`: the first signer in list order whose `match_id` accepts `id`. */
  function GetSigner(cs: CommonSigner, id: Bytes): (r: Option<Signer>)
    ensures r.None? <==> !AnyMatch(cs.signers, id)
    ensures r.Some? ==> exists i :: IsFirstMatch(cs.signers, id, i) && r.value == cs.signers[i]
  {
    match FirstMatchFrom(cs.signers, id, 0)
    case None => None
    case Some(i) => Some(cs.signers[i])
  }

  /** `match_id`: some inner signer accepts `id`. */
  function MatchId(cs: CommonSigner, id: Bytes): (b: bool)
    ensures b <==> exists i :: 0 <= i < |cs.signers| && cs.signers[i].matchId(id)
  {
    GetSigner(cs, id).Some?
  }

  /** `sign`: delegated, with the arguments unchanged, to the first signer that accepts `id`;
      `IdNotFound` when none does. */
  function Sign(cs: CommonSigner, id: Bytes, message: Bytes, recoverable: bool, tx: Transaction)
    : (r: Result<Bytes, SignerError>)
    ensures !AnyMatch(cs.signers, id) ==> r == Failure(IdNotFound)
    ensures AnyMatch(cs.signers, id) ==>
      exists i :: IsFirstMatch(cs.signers, id, i) && r == cs.signers[i].sign(id, message, recoverable, tx)
  {
    match GetSigner(cs, id)
    case None => Failure(IdNotFound)
    case Some(s) => s.sign(id, message, recoverable, tx)
  }

  /** The first match is unique, so the dispatch is deterministic. */
  lemma FirstMatchUnique(signers: seq<Signer>, id: Bytes, i: int, k: int)
    requires IsFirstMatch(signers, id, i) && IsFirstMatch(signers, id, k)
    ensures i == k
  {
  }

  /** With no signers every id is unmatched and signing always fails. */
  lemma EmptySignerRejectsAll(id: Bytes, message: Bytes, recoverable: bool, tx: Transaction)
    ensures !MatchId(CommonSigner([]), id)
    ensures Sign(CommonSigner([]), id, message, recoverable, tx) == Failure(IdNotFound)
  {
  }

  /** A signer list of one backend (how the transfer builder uses it) behaves as that backend,
      except that an unknown id is reported as `IdNotFound`. */
  lemma SingletonDelegates(s: Signer, id: Bytes, message: Bytes, recoverable: bool, tx: Transaction)
    ensures MatchId(CommonSigner([s]), id) == s.matchId(id)
    ensures Sign(CommonSigner([s]), id, message, recoverable, tx) ==
      (if s.matchId(id) then s.sign(id, message, recoverable, tx) else Failure(IdNotFound))
  {
    if s.matchId(id) {
      var r := Sign(CommonSigner([s]), id, message, recoverable, tx);
      var i :| IsFirstMatch([s], id, i) && r == [s][i].sign(id, message, recoverable, tx);
      assert i == 0;
    }
  }

  /** Earlier signers take priority: appending backends never changes who signs an id that the
      list already accepts. */
  lemma AppendKeepsPriority(signers: seq<Signer>, extra: seq<Signer>, id: Bytes, i: int)
    requires IsFirstMatch(signers, id, i)
    ensures IsFirstMatch(signers + extra, id, i)
    ensures GetSigner(CommonSigner(signers + extra), id) == Some(signers[i])
  {
    var all := signers + extra;
    assert forall j :: 0 <= j <= i ==> all[j] == signers[j];
    var k :| IsFirstMatch(all, id, k) && GetSigner(CommonSigner(all), id).value == all[k];
    FirstMatchUnique(all, id, i, k);
  }
}
