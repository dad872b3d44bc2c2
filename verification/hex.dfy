/** Lower-case hexadecimal strings: MD5 digests and PHP's `base_convert(v, 10, 16)`. */
module Hex {

  predicate IsHexDigit(c: char) {
    '0' <= c <= '9' || 'a' <= c <= 'f'
  }

  predicate IsHexString(s: string) {
    forall i :: 0 <= i < |s| ==> IsHexDigit(s[i])
  }

  /** Number of characters in an MD5 hex digest. */
  const DigestLength: nat := 32

  /** What `md5()` returns: exactly 32 lower-case hex characters. */
  type Digest = s: string | |s| == DigestLength && IsHexString(s)
    witness "00000000000000000000000000000000"

  function DigitValue(c: char): (d: nat)
    requires IsHexDigit(c)
    ensures d < 16
  {
    if c <= '9' then c as int - '0' as int else c as int - 'a' as int + 10
  }

  function DigitChar(d: nat): (c: char)
    requires d < 16
    ensures IsHexDigit(c) && DigitValue(c) == d
  {
    if d < 10 then ('0' as int + d) as char else ('a' as int + d - 10) as char
  }

  /** `base_convert(v, 10, 16)`: the shortest lower-case hex spelling of `v`. */
  function ToHex(v: nat): (s: string)
    ensures |s| >= 1 && IsHexString(s)
    ensures s[0] == '0' ==> |s| == 1 && v == 0
    decreases v
  {
    if v < 16 then [DigitChar(v)] else ToHex(v / 16) + [DigitChar(v % 16)]
  }

  /** The value a hex string spells, most significant digit first. */
  function FromHex(s: string): nat
    requires IsHexString(s)
  {
    if |s| == 0 then 0 else FromHex(s[..|s| - 1]) * 16 + DigitValue(s[|s| - 1])
  }

  /** Reading back what `ToHex` wrote gives the original number. */
  lemma {:induction false} FromHexToHex(v: nat)
    ensures FromHex(ToHex(v)) == v
    decreases v
  {
    if v >= 16 {
      var p := ToHex(v / 16);
      var s := ToHex(v);
      FromHexToHex(v / 16);
      assert s == p + [DigitChar(v % 16)];
      assert s[..|s| - 1] == p;
    }
  }

  /** Different numbers have different hex spellings. */
  lemma ToHexInjective(v: nat, w: nat)
    ensures ToHex(v) == ToHex(w) <==> v == w
  {
    FromHexToHex(v);
    FromHexToHex(w);
  }
}
