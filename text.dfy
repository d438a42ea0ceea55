/**
 * The few `str` operations of Python that the model manager relies on:
 * substring tests (`x in s`), `endswith`, `strip`, `lower` and `str(int)`.
 */
module Text {

  predicate StartsWith(s: string, prefix: string) {
    |prefix| <= |s| && s[..|prefix|] == prefix
  }

  predicate EndsWith(s: string, suffix: string) {
    |suffix| <= |s| && s[|s| - |suffix|..] == suffix
  }

  /** Python's `sub in s`. */
  predicate Contains(s: string, sub: string)
    decreases |s|
  {
    StartsWith(s, sub) || (|s| > 0 && Contains(s[1..], sub))
  }

  /** An occurrence of `sub` at offset `i` makes `sub in s` true. */
  lemma {:induction false} ContainsAt(s: string, sub: string, i: nat)
    requires i + |sub| <= |s| && s[i..i + |sub|] == sub
    ensures Contains(s, sub)
    decreases i
  {
    if i > 0 {
      assert s[1..][i - 1..i - 1 + |sub|] == sub;
      ContainsAt(s[1..], sub, i - 1);
    } else {
      assert s[..|sub|] == sub;
    }
  }

  /** `sub in s` is false when the first character of `sub` never occurs in `s`. */
  lemma {:induction false} NotContainsWithoutFirst(s: string, sub: string)
    requires |sub| > 0 && sub[0] !in s
    ensures !Contains(s, sub)
    decreases |s|
  {
    if |sub| <= |s| {
      assert s[..|sub|][0] == s[0];
    }
    if |s| > 0 {
      assert forall k :: 0 <= k < |s[1..]| ==> s[1..][k] == s[k + 1];
      NotContainsWithoutFirst(s[1..], sub);
    }
  }

  /** The characters for which Python's `str.isspace()` holds. */
  predicate IsSpace(c: char) {
    var n := c as int;
    (0x09 <= n <= 0x0D) || (0x1C <= n <= 0x20) || n == 0x85 || n == 0xA0 || n == 0x1680 ||
    (0x2000 <= n <= 0x200A) || n == 0x2028 || n == 0x2029 || n == 0x202F || n == 0x205F || n == 0x3000
  }

  /** True when `s.strip()` is the empty string, that is, when Python treats it as false. */
  predicate IsBlank(s: string) {
    forall i :: 0 <= i < |s| ==> IsSpace(s[i])
  }

  /** `s.lstrip()`: the longest suffix of `s` that does not start with whitespace. */
  function StripLeft(s: string): (r: string)
    ensures |r| <= |s| && r == s[|s| - |r|..]
    ensures forall i :: 0 <= i < |s| - |r| ==> IsSpace(s[i])
    ensures r == [] || !IsSpace(r[0])
    decreases |s|
  {
    if s != [] && IsSpace(s[0]) then StripLeft(s[1..]) else s
  }

  /** `s.rstrip()`: the longest prefix of `s` that does not end with whitespace. */
  function StripRight(s: string): (r: string)
    ensures |r| <= |s| && r == s[..|r|]
    ensures forall i :: |r| <= i < |s| ==> IsSpace(s[i])
    ensures r == [] || !IsSpace(r[|r| - 1])
    decreases |s|
  {
    if s != [] && IsSpace(s[|s| - 1]) then StripRight(s[..|s| - 1]) else s
  }

  /** `w` is `s[i..i + |w|]` and everything of `s` outside that window is whitespace. */
  predicate IsTrimmedWindow(s: string, w: string, i: nat) {
    i + |w| <= |s| && w == s[i..i + |w|] &&
    (forall k :: 0 <= k < i ==> IsSpace(s[k])) &&
    (forall k :: i + |w| <= k < |s| ==> IsSpace(s[k]))
  }

  /**
   * `s.strip()`: the window of `s` left after removing whitespace at both ends.
   * It is empty exactly when `s` is blank, and otherwise it begins and ends
   * with a character that is not whitespace.
   */
  function Strip(s: string): (r: string)
    ensures exists i :: IsTrimmedWindow(s, r, i)
    ensures r == [] <==> IsBlank(s)
    ensures r != [] ==> !IsSpace(r[0]) && !IsSpace(r[|r| - 1])
  {
    StripBothEnds(s);
    StripRight(StripLeft(s))
  }

  lemma StripBothEnds(s: string)
    ensures IsTrimmedWindow(s, StripRight(StripLeft(s)), |s| - |StripLeft(s)|)
    ensures StripRight(StripLeft(s)) == [] <==> IsBlank(s)
    ensures StripRight(StripLeft(s)) != [] ==> !IsSpace(StripRight(StripLeft(s))[0])
  {
    StripWindow(s);
    StripEmpty(s);
  }

  lemma StripWindow(s: string)
    ensures IsTrimmedWindow(s, StripRight(StripLeft(s)), |s| - |StripLeft(s)|)
  {
    var l := StripLeft(s);
    var r := StripRight(l);
    var i := |s| - |l|;
    assert l == s[i..];
    assert r == l[..|r|];
    assert r == s[i..i + |r|];
    forall k | i + |r| <= k < |s|
      ensures IsSpace(s[k])
    {
      assert |r| <= k - i < |l|;
      assert s[k] == l[k - i];
    }
    assert i + |r| <= |s|;
    assert forall k :: 0 <= k < i ==> IsSpace(s[k]);
    assert IsTrimmedWindow(s, r, i);
  }

  lemma StripEmpty(s: string)
    ensures StripRight(StripLeft(s)) == [] <==> IsBlank(s)
    ensures StripRight(StripLeft(s)) != [] ==> !IsSpace(StripRight(StripLeft(s))[0])
  {
    var l := StripLeft(s);
    var r := StripRight(l);
    var i := |s| - |l|;
    if r != [] {
      assert r[0] == l[0] == s[i];
    } else {
      assert l == [];
    }
  }

  /** Python's `s.lower()` restricted to ASCII letters. */
  function AsciiLower(s: string): (r: string)
    ensures |r| == |s|
    ensures forall i :: 0 <= i < |s| ==> r[i] == if 'A' <= s[i] <= 'Z' then (s[i] as int + 32) as char else s[i]
  {
    seq(|s|, i requires 0 <= i < |s| => if 'A' <= s[i] <= 'Z' then (s[i] as int + 32) as char else s[i])
  }

  function NatToString(n: nat): string
    decreases n
  {
    if n < 10 then ["0123456789"[n]] else NatToString(n / 10) + ["0123456789"[n % 10]]
  }

  /** Python's `str(n)` for an integer. */
  function IntToString(n: int): string {
    if n < 0 then "-" + NatToString(-n) else NatToString(n)
  }
}
