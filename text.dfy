/**
 * The two string operations the feature generator relies on: lower-casing a
 * name (`str.lower()`) and substring membership (`sub in s`).
 * Lower-casing is modelled for ASCII letters only.
 */
module Text {

  predicate IsUpper(c: char) {
    'A' <= c <= 'Z'
  }

  /** Lower-case one character: ASCII upper-case letters move down by 32, everything else is kept. */
  function LowerChar(c: char): (r: char)
    ensures !IsUpper(r)
    ensures !IsUpper(c) ==> r == c
    ensures IsUpper(c) ==> 'a' <= r <= 'z' && r as int - c as int == 32
  {
    if IsUpper(c) then (c as int + 32) as char else c
  }

  /** `s.lower()`: the same string with every ASCII upper-case letter lowered. */
  function Lower(s: string): (r: string)
    ensures |r| == |s|
    ensures forall i :: 0 <= i < |r| ==> !IsUpper(r[i])
    ensures forall i :: 0 <= i < |s| && !IsUpper(s[i]) ==> r[i] == s[i]
    ensures forall i :: 0 <= i < |s| && IsUpper(s[i]) ==> r[i] as int == s[i] as int + 32
  {
    seq(|s|, i requires 0 <= i < |s| => LowerChar(s[i]))
  }

  /** `sub` sits in `s` starting at index `k`. */
  predicate OccursAt(s: string, sub: string, k: int) {
    0 <= k <= |s| - |sub| && s[k..k + |sub|] == sub
  }

  /**
   * `sub in s`: `sub` occurs in `s` at some index. The empty string and `s`
   * itself are always in `s`; a key longer than `s`, or whose first character
   * never appears in `s`, is not.
   */
  predicate Contains(s: string, sub: string)
    ensures |sub| == 0 ==> Contains(s, sub)
    ensures s == sub ==> Contains(s, sub)
    ensures Contains(s, sub) ==> |sub| <= |s|
    ensures Contains(s, sub) && |sub| > 0 ==> sub[0] in s
  {
    assert |sub| == 0 || s == sub ==> OccursAt(s, sub, 0);
    exists k | 0 <= k <= |s| - |sub| :: OccursAt(s, sub, k)
  }

  /** An occurrence at index `k` witnesses Contains. */
  lemma OccursImpliesContains(s: string, sub: string, k: int)
    requires OccursAt(s, sub, k)
    ensures Contains(s, sub)
  {
  }

  /** A string in which the first character of `sub` never appears does not contain `sub`. */
  lemma MissingFirstChar(s: string, sub: string)
    requires |sub| > 0 && sub[0] !in s
    ensures !Contains(s, sub)
  {
  }

  /** A string shorter than `sub` does not contain it. */
  lemma TooShort(s: string, sub: string)
    requires |s| < |sub|
    ensures !Contains(s, sub)
  {
  }

  /** Lower-casing twice is lower-casing once. */
  lemma LowerIdempotent(s: string)
    ensures Lower(Lower(s)) == Lower(s)
  {
  }

  /** Lower-casing commutes with taking a slice. */
  lemma LowerSlice(s: string, i: int, j: int)
    requires 0 <= i <= j <= |s|
    ensures Lower(s)[i..j] == Lower(s[i..j])
  {
  }

  /**
   * A case-sensitive match survives lower-casing both sides: whenever `sub in s`,
   * also `sub.lower() in s.lower()`. The converse fails (see the NHR keys).
   */
  lemma LowerKeepsContains(s: string, sub: string)
    requires Contains(s, sub)
    ensures Contains(Lower(s), Lower(sub))
  {
    var k :| 0 <= k <= |s| - |sub| && OccursAt(s, sub, k);
    LowerSlice(s, k, k + |sub|);
    OccursImpliesContains(Lower(s), Lower(sub), k);
  }
}
