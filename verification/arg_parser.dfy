/** The command-line value parsers of src/arg_parser.rs. The hex decoders (`from_str`) and
    `SecretKey::from_slice` belong to libraries and are parameters. */
module ArgParser {
  import opened Bytes
  import opened Wrappers
  import opened Errors
  import Util

  predicate StartsWith(s: string, prefix: string) {
    |prefix| <= |s| && s[..|prefix|] == prefix
  }

  /** The prefix handling written out inside the `arg_parser!` macro and the public-key parser. */
  function DropHexMarker(s: string): (r: string)
    ensures |r| == |s| || |r| == |s| - 2
    ensures r == s[|s| - |r|..]
    ensures |r| < |s| <==> StartsWith(s, "0x") || StartsWith(s, "0X")
  {
    if StartsWith(s, "0x") || StartsWith(s, "0X") then s[2..] else s
  }

  /** The inline prefix handling is the same function as `util::strip_prefix_0x`. */
  lemma DropHexMarkerIsStripPrefix0x(s: string)
    ensures DropHexMarker(s) == Util.StripPrefix0x(s)
  {
    if |s| >= 2 {
      assert StartsWith(s, "0x") <==> s[0] == '0' && s[1] == 'x' by {
        assert s[..2] == [s[0], s[1]];
      }
      assert StartsWith(s, "0X") <==> s[0] == '0' && s[1] == 'X' by {
        assert s[..2] == [s[0], s[1]];
      }
    }
  }

  /** `ArgParser::parse` generated by `arg_parser!` for `H160` and `H256`: at most one marker is
      stripped, then the text goes to `from_str`, whose error is propagated. */
  function ParseHexArg<T>(s: string, fromStr: string -> Result<T, string>): (r: Result<T, Error>)
    ensures r.Success? <==> fromStr(Util.StripPrefix0x(s)).Success?
    ensures r.Success? ==> r.value == fromStr(Util.StripPrefix0x(s)).value
    ensures r.Failure? ==> r.error == Library(fromStr(Util.StripPrefix0x(s)).error)
  {
    DropHexMarkerIsStripPrefix0x(s);
    fromStr(DropHexMarker(s)).MapFailure(e => Library(e))
  }

  /** `ArgParser::parse` for `secp256k1::PublicKey`: the same marker handling before `from_str`. */
  function ParsePublicKey<K>(s: string, fromStr: string -> Result<K, string>): (r: Result<K, Error>)
    ensures r.Success? <==> fromStr(Util.StripPrefix0x(s)).Success?
    ensures r.Success? ==> r.value == fromStr(Util.StripPrefix0x(s)).value
    ensures r.Failure? ==> r.error == Library(fromStr(Util.StripPrefix0x(s)).error)
  {
    DropHexMarkerIsStripPrefix0x(s);
    match fromStr(DropHexMarker(s))
    case Success(k) => Success(k)
    case Failure(e) => Failure(Library(e))
  }

  /** A secp256k1 secret key; the scalar range check is made by `SecretKey::from_slice`. */
  datatype SecretKey = SecretKey(scalar: H256)

  /** The wrapper that scrubs the key on drop; dereferencing it yields the key. */
  datatype PrivkeyWrapper = PrivkeyWrapper(inner: SecretKey) {
    function Deref(): SecretKey {
      inner
    }
  }

  /** `PrivkeyArgParser::parse`: parse as `H256` (so with the same marker forms), then build the
      key with `SecretKey::from_slice`; either failure is an error. */
  function ParsePrivkey(s: string, h256FromStr: string -> Result<H256, string>,
                        fromSlice: H256 -> Result<SecretKey, string>): (r: Result<PrivkeyWrapper, Error>)
    ensures var data := h256FromStr(Util.StripPrefix0x(s));
      && (data.Failure? ==> r == Failure(Library(data.error)))
      && (data.Success? && fromSlice(data.value).Failure? ==> r == Failure(Library(fromSlice(data.value).error)))
      && (data.Success? && fromSlice(data.value).Success? ==> r == Success(PrivkeyWrapper(fromSlice(data.value).value)))
  {
    var data :- ParseHexArg(s, h256FromStr);
    var key :- fromSlice(data).MapFailure(e => Library(e));
    Success(PrivkeyWrapper(key))
  }

  /** A successfully parsed key dereferences to exactly what `SecretKey::from_slice` built. */
  lemma ParsedKeyDerefs(s: string, h256FromStr: string -> Result<H256, string>,
                        fromSlice: H256 -> Result<SecretKey, string>)
    requires ParsePrivkey(s, h256FromStr, fromSlice).Success?
    ensures var data := h256FromStr(Util.StripPrefix0x(s));
      data.Success? && fromSlice(data.value) == Success(ParsePrivkey(s, h256FromStr, fromSlice).value.Deref())
  {
  }

  /** The marker is optional and either case is accepted: "0x" + t, "0X" + t and t parse alike
      whenever t itself carries no marker. */
  lemma PrivkeyMarkerForms(t: string, h256FromStr: string -> Result<H256, string>,
                           fromSlice: H256 -> Result<SecretKey, string>)
    requires !Util.HasHexPrefix(t)
    ensures ParsePrivkey("0x" + t, h256FromStr, fromSlice) == ParsePrivkey(t, h256FromStr, fromSlice)
    ensures ParsePrivkey("0X" + t, h256FromStr, fromSlice) == ParsePrivkey(t, h256FromStr, fromSlice)
  {
    Util.StripUndoesPrefix(t);
  }
}
