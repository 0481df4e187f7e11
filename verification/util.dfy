/** `strip_prefix_0x` of src/util.rs. */
module Util {

  /** The input starts with "0x" or "0X". */
  predicate HasHexPrefix(s: string) {
    |s| >= 2 && s[0] == '0' && (s[1] == 'x' || s[1] == 'X')
  }

  /** Removes one leading "0x"/"0X", if there is one. The result is what remains of `s` after
      a prefix that is either a hex marker or empty. */
  function StripPrefix0x(s: string): (r: string)
    ensures |r| == |s| - 2 || |r| == |s|
    ensures r == s[|s| - |r|..]
    ensures |r| < |s| <==> HasHexPrefix(s)
  {
    if HasHexPrefix(s) then s[2..] else s
  }

  /** Prepending either marker and stripping gives the original text back. */
  lemma StripUndoesPrefix(t: string)
    ensures StripPrefix0x("0x" + t) == t
    ensures StripPrefix0x("0X" + t) == t
  {
    assert HasHexPrefix("0x" + t) && HasHexPrefix("0X" + t);
    assert ("0x" + t)[2..] == t;
    assert ("0X" + t)[2..] == t;
  }

  /** A text without a marker is a fixed point. */
  lemma StripWithoutPrefixIsIdentity(s: string)
    requires !HasHexPrefix(s)
    ensures StripPrefix0x(s) == s
  {
  }

  /** Only one marker is removed, so the function is not idempotent. */
  lemma StripRemovesOnlyOnePrefix()
    ensures StripPrefix0x("0x0xab") == "0xab"
    ensures StripPrefix0x(StripPrefix0x("0x0xab")) == "ab"
  {
    assert "0x0xab"[2..] == "0xab";
    assert "0xab"[2..] == "ab";
  }
}
