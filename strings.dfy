/**
 * The string operations the source relies on: `toLowerCase`, `startsWith`,
 * `endsWith` and `includes`. Case mapping is modelled for ASCII letters only.
 */
module Strings {

  /** `c.toLowerCase()` for one character: A-Z map to a-z, everything else is kept. */
  function LowerChar(c: char): (r: char)
    ensures 'A' <= c <= 'Z' ==> 'a' <= r <= 'z'
    ensures !('A' <= c <= 'Z') ==> r == c
  {
    if 'A' <= c <= 'Z' then (c as int + 32) as char else c
  }

  /** `c.toUpperCase()` for one character, the inverse direction of LowerChar. */
  function UpperChar(c: char): (r: char)
    ensures 'a' <= c <= 'z' ==> 'A' <= r <= 'Z'
    ensures !('a' <= c <= 'z') ==> r == c
  {
    if 'a' <= c <= 'z' then (c as int - 32) as char else c
  }

  /** `s.toLowerCase()`: same length, every character lower-cased in place. */
  function ToLower(s: string): (r: string)
    ensures |r| == |s|
    ensures forall i :: 0 <= i < |s| ==> r[i] == LowerChar(s[i])
  {
    if s == [] then [] else [LowerChar(s[0])] + ToLower(s[1..])
  }

  /** `s.toUpperCase()`. */
  function ToUpper(s: string): (r: string)
    ensures |r| == |s|
    ensures forall i :: 0 <= i < |s| ==> r[i] == UpperChar(s[i])
  {
    if s == [] then [] else [UpperChar(s[0])] + ToUpper(s[1..])
  }

  predicate StartsWith(s: string, prefix: string) {
    |prefix| <= |s| && s[..|prefix|] == prefix
  }

  predicate EndsWith(s: string, suffix: string) {
    |suffix| <= |s| && s[|s| - |suffix|..] == suffix
  }

  /** `s.includes(t)`: t occurs at some position of s. */
  predicate Contains(s: string, t: string)
    decreases |s|
  {
    StartsWith(s, t) || (s != [] && Contains(s[1..], t))
  }

  /** Two strings that differ only in the case of ASCII letters. */
  predicate SameUpToCase(a: string, b: string) {
    |a| == |b| && forall i :: 0 <= i < |a| ==> LowerChar(a[i]) == LowerChar(b[i])
  }

  /** Two strings that differ only in letter case have the same lower-cased form. */
  lemma SameUpToCaseLower(a: string, b: string)
    requires SameUpToCase(a, b)
    ensures ToLower(a) == ToLower(b)
  {
  }

  /** Upper-casing a string changes only the case of its letters. */
  lemma {:induction false} UpperIsSameUpToCase(s: string)
    ensures SameUpToCase(ToUpper(s), s)
  {
    if s != [] {
      UpperIsSameUpToCase(s[1..]);
    }
  }

  /** Whatever precedes a suffix does not matter to `endsWith`. */
  lemma EndsWithAppend(prefix: string, s: string, suffix: string)
    requires EndsWith(s, suffix)
    ensures EndsWith(prefix + s, suffix)
  {
    var w := prefix + s;
    assert w[|w| - |suffix|..] == s[|s| - |suffix|..];
  }

  /** No ASCII capital letter in s. */
  predicate NoUpper(s: string) {
    forall i :: 0 <= i < |s| ==> !('A' <= s[i] <= 'Z')
  }

  /** Lower-casing keeps a suffix that has no capital letter. */
  lemma EndsWithLower(s: string, suffix: string)
    requires EndsWith(s, suffix) && NoUpper(suffix)
    ensures EndsWith(ToLower(s), suffix)
  {
    var l := ToLower(s);
    var k := |s| - |suffix|;
    forall i | 0 <= i < |suffix| ensures l[k..][i] == suffix[i] {
      assert l[k..][i] == LowerChar(s[k + i]);
      assert s[k + i] == suffix[i];
    }
  }

  /** A string ending in one suffix does not end in another suffix of the same length. */
  lemma EndsWithDistinct(s: string, a: string, b: string)
    requires |a| == |b| && a != b
    requires EndsWith(s, a)
    ensures !EndsWith(s, b)
  {
  }

  /** A string ending in a non-empty suffix ends in that suffix's last character. */
  lemma EndsWithLastChar(s: string, suffix: string)
    requires |suffix| > 0 && EndsWith(s, suffix)
    ensures s[|s| - 1] == suffix[|suffix| - 1]
  {
    assert s[|s| - |suffix|..][|suffix| - 1] == s[|s| - 1];
  }

  /** Two suffixes with different last characters cannot both end s. */
  lemma EndsWithLastCharDiffers(s: string, a: string, b: string)
    requires |a| > 0 && |b| > 0 && a[|a| - 1] != b[|b| - 1]
    requires EndsWith(s, a)
    ensures !EndsWith(s, b)
  {
    EndsWithLastChar(s, a);
    if |b| <= |s| {
      assert s[|s| - |b|..][|b| - 1] == s[|s| - 1];
    }
  }

  /** An occurrence of t at position k of s is found by Contains. */
  lemma {:induction false} ContainsAt(s: string, t: string, k: nat)
    requires k + |t| <= |s| && s[k..k + |t|] == t
    ensures Contains(s, t)
    decreases k
  {
    if k > 0 {
      assert s[1..][k - 1..k - 1 + |t|] == s[k..k + |t|];
      ContainsAt(s[1..], t, k - 1);
    }
  }
}
