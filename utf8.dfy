/** UTF-8 well-formedness as `std::str::from_utf8` decides it: the byte
    sequences of RFC 3629, section 4 (no overlong forms, no surrogates,
    nothing above U+10FFFF). A `&str` is its bytes, so decoding succeeds or
    fails and never changes the bytes. */
module Utf8 {
  import opened Abi

  predicate IsContinuation(b: uint8) {
    0x80 <= b <= 0xBF
  }

  /** The length of the well-formed character that starts `s`, or 0 when
      `s` does not start with one. */
  function FirstCharLength(s: seq<uint8>): (n: nat)
    ensures n <= 4 && n <= |s|
    ensures n > 0 ==> |s| > 0
    ensures |s| > 0 && s[0] < 0x80 ==> n == 1
    ensures |s| > 0 && IsContinuation(s[0]) ==> n == 0
  {
    if |s| == 0 then 0
    else
      var b0 := s[0];
      if b0 < 0x80 then 1
      else if 0xC2 <= b0 <= 0xDF then
        if |s| >= 2 && IsContinuation(s[1]) then 2 else 0
      else if b0 == 0xE0 then
        if |s| >= 3 && 0xA0 <= s[1] <= 0xBF && IsContinuation(s[2]) then 3 else 0
      else if 0xE1 <= b0 <= 0xEC || 0xEE <= b0 <= 0xEF then
        if |s| >= 3 && IsContinuation(s[1]) && IsContinuation(s[2]) then 3 else 0
      else if b0 == 0xED then
        if |s| >= 3 && 0x80 <= s[1] <= 0x9F && IsContinuation(s[2]) then 3 else 0
      else if b0 == 0xF0 then
        if |s| >= 4 && 0x90 <= s[1] <= 0xBF && IsContinuation(s[2]) && IsContinuation(s[3]) then 4 else 0
      else if 0xF1 <= b0 <= 0xF3 then
        if |s| >= 4 && IsContinuation(s[1]) && IsContinuation(s[2]) && IsContinuation(s[3]) then 4 else 0
      else if b0 == 0xF4 then
        if |s| >= 4 && 0x80 <= s[1] <= 0x8F && IsContinuation(s[2]) && IsContinuation(s[3]) then 4 else 0
      else 0
  }

  /** `std::str::from_utf8(s).is_ok()`. */
  predicate ValidUtf8(s: seq<uint8>)
    decreases |s|
  {
    s == [] || (FirstCharLength(s) > 0 && ValidUtf8(s[FirstCharLength(s)..]))
  }

  /** Every ASCII byte string is valid UTF-8. */
  lemma {:induction false} AsciiIsValid(s: seq<uint8>)
    requires forall i :: 0 <= i < |s| ==> s[i] < 0x80
    ensures ValidUtf8(s)
    decreases |s|
  {
    if s != [] {
      AsciiIsValid(s[1..]);
    }
  }

  /** The first character of a byte string is also the first character of
      any longer string that starts with it. */
  lemma FirstCharOfPrefix(p: seq<uint8>, s: seq<uint8>)
    requires |p| <= |s| && s[..|p|] == p
    requires FirstCharLength(p) > 0
    ensures FirstCharLength(s) == FirstCharLength(p)
  {
    assert forall i :: 0 <= i < |p| ==> s[i] == p[i];
  }

  /** A string that has a continuation byte where a character must start
      (right after a valid prefix) is invalid, wherever that position is. */
  lemma {:induction false} StrayContinuationIsInvalid(s: seq<uint8>, k: nat)
    requires k < |s| && IsContinuation(s[k])
    requires ValidUtf8(s[..k])
    ensures !ValidUtf8(s)
    decreases k
  {
    if k > 0 {
      var p := s[..k];
      var n := FirstCharLength(p);
      FirstCharOfPrefix(p, s);
      assert s[n..][..k - n] == p[n..];
      StrayContinuationIsInvalid(s[n..], k - n);
    }
  }
}
