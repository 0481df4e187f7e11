/** The configuration loader of src/config.rs: `~` expansion, the required/defaulted key
    lookups of `try_str!`/`try_i64!`, and `ConfigContext::parse` over an abstract file system. */
module Config {
  import opened Bytes
  import opened Wrappers
  import opened Errors

  /** Repeated `c`, used to describe stripped runs of separators. */
  function Repeat(c: char, n: nat): (s: string)
    ensures |s| == n && forall i :: 0 <= i < n ==> s[i] == c
  {
    seq(n, _ => c)
  }

  /** One more leading "/" lengthens the separator run in front of the same remainder. */
  lemma SlashRunStep(s: string, rest: string)
    requires |s| > 0 && s[0] == '/' && |rest| <= |s| - 1
    requires s[1..] == Repeat('/', |s| - 1 - |rest|) + rest
    ensures s == Repeat('/', |s| - |rest|) + rest
  {
    var n := |s| - 1 - |rest|;
    assert Repeat('/', n + 1) == "/" + Repeat('/', n);
    assert s == "/" + s[1..];
  }

  /** `trim_start_matches("/")`: all leading separators removed, nothing else. */
  function TrimLeadingSlashes(s: string): (r: string)
    ensures |r| <= |s|
    ensures s == Repeat('/', |s| - |r|) + r
    ensures r == [] || r[0] != '/'
    decreases |s|
  {
    if |s| > 0 && s[0] == '/' then
      var rest := TrimLeadingSlashes(s[1..]);
      SlashRunStep(s, rest);
      rest
    else
      assert Repeat('/', 0) == [];
      s
  }

  /** `PathBuf::push` of a relative component: a separator is added unless the base is empty or
      already ends with one; an absolute component replaces the base. */
  function Push(dir: string, component: string): string {
    if |component| > 0 && component[0] == '/' then component
    else if |dir| > 0 && dir[|dir| - 1] != '/' then dir + "/" + component
    else dir + component
  }

  /** What a push yields: an absolute component replaces the directory; a relative one follows
      the directory, separated from a non-empty directory by exactly one "/". */
  lemma PushShape(dir: string, component: string)
    ensures |component| > 0 && component[0] == '/' ==> Push(dir, component) == component
    ensures !(|component| > 0 && component[0] == '/') ==>
      var r := Push(dir, component);
      && (|r| == |dir| + |component| || |r| == |dir| + |component| + 1)
      && r[..|dir|] == dir
      && r[|r| - |component|..] == component
      && (|dir| > 0 ==> r[|r| - |component| - 1] == '/')
  {
  }

  /** `expand_home_dir`: a path starting with "~" has exactly one "~" and then every leading "/"
      removed, and the rest is pushed onto the home directory; any other path is kept as it is.
      `home` is `dirs::home_dir()`, whose absence makes `unwrap()` panic. */
  function ExpandHomeDir(path: string, home: Option<string>): (r: Result<string, Error>)
    ensures |path| == 0 || path[0] != '~' ==> r == Success(path)
    ensures |path| > 0 && path[0] == '~' && home.None? ==> r == Failure(Panic("dirs::home_dir"))
    ensures |path| > 0 && path[0] == '~' && home.Some? ==>
      exists k: nat, rest: string | k < |path| && path == "~" + Repeat('/', k) + rest ::
        (rest == [] || rest[0] != '/') && r == Success(Push(home.value, rest))
  {
    if |path| > 0 && path[0] == '~' then
      var filePath := path[1..];
      var filePath := if |filePath| > 0 && filePath[0] == '/' then TrimLeadingSlashes(filePath) else filePath;
      match home
      case None => Failure(Panic("dirs::home_dir"))
      case Some(dir) =>
        var k := |path| - 1 - |filePath|;
        assert path == "~" + path[1..];
        assert path == "~" + Repeat('/', k) + filePath;
        Success(Push(dir, filePath))
    else
      Success(path)
  }

  /** "~///a", "~/a" and "~a" name the same file: the number of separators after "~" is irrelevant. */
  lemma {:induction false} ExpandIgnoresSeparatorsAfterTilde(rest: string, k: nat, home: Option<string>)
    ensures ExpandHomeDir("~" + Repeat('/', k) + rest, home) == ExpandHomeDir("~" + rest, home)
  {
    var p := "~" + Repeat('/', k) + rest;
    var q := "~" + rest;
    assert p[1..] == Repeat('/', k) + rest;
    assert q[1..] == rest;
    TrimAfterSlashes(rest, k);
  }

  /** Trimming is insensitive to extra leading separators. */
  lemma {:induction false} TrimAfterSlashes(rest: string, k: nat)
    ensures TrimLeadingSlashes(Repeat('/', k) + rest) == TrimLeadingSlashes(rest)
    decreases k
  {
    if k > 0 {
      var s := Repeat('/', k) + rest;
      assert s[0] == '/';
      assert s[1..] == Repeat('/', k - 1) + rest;
      TrimAfterSlashes(rest, k - 1);
    } else {
      assert Repeat('/', k) + rest == rest;
    }
  }

  lemma ExpandExamples()
    ensures ExpandHomeDir("~a", Some("/home/u")) == Success("/home/u/a")
    ensures ExpandHomeDir("~///a", Some("/home/u")) == Success("/home/u/a")
    ensures ExpandHomeDir("/etc/a", Some("/home/u")) == Success("/etc/a")
  {
    assert ("~a")[1..] == "a";
    assert Push("/home/u", "a") == "/home/u/a";
    assert Repeat('/', 3) == "///";
    ExpandIgnoresSeparatorsAfterTilde("a", 3, Some("/home/u"));
  }

  /** A signed 64-bit integer, the range of a YAML integer node. */
  type I64 = i: int | -0x8000_0000_0000_0000 <= i < 0x8000_0000_0000_0000

  /** A YAML node, as far as `as_str()` and `as_i64()` distinguish them. */
  datatype Yaml = YString(s: string) | YInteger(i: I64) | YOther

  /** A YAML document: a mapping from keys to nodes. A missing key reads as a bad value. */
  type YamlDoc = map<string, Yaml>

  function AsStr(doc: YamlDoc, key: string): Option<string> {
    if key in doc && doc[key].YString? then Some(doc[key].s) else None
  }

  function AsI64(doc: YamlDoc, key: string): Option<I64> {
    if key in doc && doc[key].YInteger? then Some(doc[key].i) else None
  }

  /** `try_str!(key, doc)`: a missing (or non-string) key is an `InvalidData` error naming it. */
  function TryStr(doc: YamlDoc, key: string): (r: Result<string, Error>)
    ensures r.Success? <==> key in doc && doc[key].YString?
    ensures r.Success? ==> doc[key] == YString(r.value)
    ensures r.Failure? ==> r.error == Io(InvalidData, key)
  {
    match AsStr(doc, key)
    case Some(v) => Success(v)
    case None => Failure(Io(InvalidData, key))
  }

  /** `try_str!(key, doc, default)`: the key's value when present, the default otherwise. */
  function TryStrOr(doc: YamlDoc, key: string, default: string): (r: string)
    ensures key in doc && doc[key].YString? ==> doc[key] == YString(r)
    ensures !(key in doc && doc[key].YString?) ==> r == default
  {
    match AsStr(doc, key)
    case Some(v) => v
    case None => default
  }

  /** `try_i64!(key, doc)`. */
  function TryI64(doc: YamlDoc, key: string): (r: Result<I64, Error>)
    ensures r.Success? <==> key in doc && doc[key].YInteger?
    ensures r.Success? ==> doc[key] == YInteger(r.value)
    ensures r.Failure? ==> r.error == Io(InvalidData, key)
  {
    match AsI64(doc, key)
    case Some(v) => Success(v)
    case None => Failure(Io(InvalidData, key))
  }

  /** `try_i64!(key, doc, default)`. */
  function TryI64Or(doc: YamlDoc, key: string, default: I64): (r: I64)
    ensures key in doc && doc[key].YInteger? ==> doc[key] == YInteger(r)
    ensures !(key in doc && doc[key].YInteger?) ==> r == default
  {
    match AsI64(doc, key)
    case Some(v) => v
    case None => default
  }

  /** A defaulted lookup agrees with the required one: it yields the value the required form
      returns, and the default exactly where the required form fails. */
  lemma DefaultedAgreesWithRequired(doc: YamlDoc, key: string, default: string, defaultInt: I64)
    ensures TryStr(doc, key).Success? ==> TryStrOr(doc, key, default) == TryStr(doc, key).value
    ensures TryStr(doc, key).Failure? ==> TryStrOr(doc, key, default) == default
    ensures TryI64(doc, key).Success? ==> TryI64Or(doc, key, defaultInt) == TryI64(doc, key).value
    ensures TryI64(doc, key).Failure? ==> TryI64Or(doc, key, defaultInt) == defaultInt
  {
  }

  const DefaultCkbRpc: string := "http://127.0.0.1:8114"
  const DefaultCkbIndexer: string := "http://127.0.0.1:8116"

  /** `i64 as usize` on a 64-bit target: two's-complement reinterpretation. */
  function I64AsUsize(i: I64): (u: nat)
    ensures u < 0x1_0000_0000_0000_0000
    ensures u % 0x1_0000_0000_0000_0000 == i % 0x1_0000_0000_0000_0000
  {
    if i < 0 then i + 0x1_0000_0000_0000_0000 else i
  }

  datatype ConfigContext = ConfigContext(
    omnilockTxHash: H256,
    omnilockIndex: nat,
    ckbRpc: string,
    ckbIndexer: string)

  /** What the file system reports for the expanded path. */
  datatype FileState =
    | Missing
    | NotAFile
    /** `fs::read` of the regular file fails; its error keeps its own kind and message. */
    | Unreadable(kind: IoKind, detail: string)
    /** The file exists but is not UTF-8 or not YAML; `detail` is the decoder's message. */
    | Undecodable(detail: string)
    /** The YAML documents of the file. */
    | Loaded(docs: seq<YamlDoc>)

  /** `ConfigContext::parse`: the path is expanded, then the first YAML document must hold
      `omnilock_tx_hash` (a hex hash) and `omnilock_index`; `ckb_rpc` and `ckb_indexer` fall back
      to the local node's default ports. */
  function Parse(path: string, home: Option<string>, fs: string -> FileState,
                 h256FromStr: string -> Result<H256, string>): (r: Result<ConfigContext, Error>)
    ensures r.Success? ==> ExpandHomeDir(path, home).Success?
    ensures r.Success? ==> var st := fs(ExpandHomeDir(path, home).value);
      && st.Loaded? && |st.docs| > 0
      && TryStr(st.docs[0], "omnilock_tx_hash").Success?
      && h256FromStr(TryStr(st.docs[0], "omnilock_tx_hash").value) == Success(r.value.omnilockTxHash)
      && TryI64(st.docs[0], "omnilock_index").Success?
      && r.value.omnilockIndex == I64AsUsize(TryI64(st.docs[0], "omnilock_index").value)
      && r.value.ckbRpc == TryStrOr(st.docs[0], "ckb_rpc", DefaultCkbRpc)
      && r.value.ckbIndexer == TryStrOr(st.docs[0], "ckb_indexer", DefaultCkbIndexer)
    ensures ExpandHomeDir(path, home).Failure? ==> r == Failure(ExpandHomeDir(path, home).error)
    ensures ExpandHomeDir(path, home).Success? && fs(ExpandHomeDir(path, home).value) == Missing ==>
      r == Failure(Io(NotFound, path))
    ensures ExpandHomeDir(path, home).Success? && fs(ExpandHomeDir(path, home).value) == NotAFile ==>
      r == Failure(Io(InvalidInput, path))
    ensures ExpandHomeDir(path, home).Success? && fs(ExpandHomeDir(path, home).value).Unreadable? ==>
      r == Failure(Io(fs(ExpandHomeDir(path, home).value).kind, fs(ExpandHomeDir(path, home).value).detail))
    ensures ExpandHomeDir(path, home).Success? && fs(ExpandHomeDir(path, home).value).Undecodable? ==>
      r == Failure(Io(InvalidData, path))
    ensures ExpandHomeDir(path, home).Success? && fs(ExpandHomeDir(path, home).value) == Loaded([]) ==>
      r == Failure(Io(InvalidData, path))
    ensures ExpandHomeDir(path, home).Success? ==> var st := fs(ExpandHomeDir(path, home).value);
      st.Loaded? && |st.docs| > 0 ==>
        var doc := st.docs[0];
        && (TryStr(doc, "omnilock_tx_hash").Failure? ==> r == Failure(Io(InvalidData, "omnilock_tx_hash")))
        && (TryStr(doc, "omnilock_tx_hash").Success? && h256FromStr(TryStr(doc, "omnilock_tx_hash").value).Failure? ==>
              r == Failure(Unparsable("omnilock_tx_hash", h256FromStr(TryStr(doc, "omnilock_tx_hash").value).error)))
        && (TryStr(doc, "omnilock_tx_hash").Success? && h256FromStr(TryStr(doc, "omnilock_tx_hash").value).Success? ==>
              && (TryI64(doc, "omnilock_index").Failure? ==> r == Failure(Io(InvalidData, "omnilock_index")))
              && (TryI64(doc, "omnilock_index").Success? ==> r.Success?))
  {
    var filePath :- ExpandHomeDir(path, home);
    match fs(filePath)
    case Missing => Failure(Io(NotFound, path))
    case NotAFile => Failure(Io(InvalidInput, path))
    case Unreadable(kind, detail) => Failure(Io(kind, detail))
    case Undecodable(_) => Failure(Io(InvalidData, path))
    case Loaded(docs) =>
      if |docs| < 1 then Failure(Io(InvalidData, path))
      else
        var doc := docs[0];
        var txHashText :- TryStr(doc, "omnilock_tx_hash");
        var txHash :- h256FromStr(txHashText).MapFailure(e => Unparsable("omnilock_tx_hash", e));
        var index :- TryI64(doc, "omnilock_index");
        var ckbRpc := TryStrOr(doc, "ckb_rpc", DefaultCkbRpc);
        var ckbIndexer := TryStrOr(doc, "ckb_indexer", DefaultCkbIndexer);
        Success(ConfigContext(txHash, I64AsUsize(index), ckbRpc, ckbIndexer))
  }

  /** A configuration that names only the required keys talks to the local node on its default ports. */
  lemma {:induction false} DefaultEndpoints(path: string, home: Option<string>, fs: string -> FileState,
                                            h256FromStr: string -> Result<H256, string>)
    requires Parse(path, home, fs, h256FromStr).Success?
    requires var st := fs(ExpandHomeDir(path, home).value);
      st.Loaded? && |st.docs| > 0 && "ckb_rpc" !in st.docs[0] && "ckb_indexer" !in st.docs[0]
    ensures Parse(path, home, fs, h256FromStr).value.ckbRpc == "http://127.0.0.1:8114"
    ensures Parse(path, home, fs, h256FromStr).value.ckbIndexer == "http://127.0.0.1:8116"
  {
  }
}
