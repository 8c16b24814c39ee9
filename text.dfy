/** The two string operations the components rely on: `toLowerCase` and
    `includes`. */
module Text {

  /** Lower-casing over the alphabet the application's strings use: the ASCII
      capitals A-Z and the Latin-1 capitals U+00C0..U+00DE (which hold
      Á, É, Í, Ó, Ú, Ñ and Ü), except the multiplication sign U+00D7. Each
      of them has its small letter 0x20 code points further on; every other
      character is left as it is. */
  predicate IsUpper(c: char) {
    ('A' <= c <= 'Z') || ('\U{C0}' <= c <= '\U{DE}' && c != '\U{D7}')
  }

  function LowerChar(c: char): (d: char)
    ensures IsUpper(c) ==> d as int == c as int + 0x20
    ensures !IsUpper(c) ==> d == c
    ensures !IsUpper(d)
  {
    if IsUpper(c) then (c as int + 0x20) as char else c
  }

  /** `s.toLowerCase()` */
  function Lower(s: string): (r: string)
    ensures |r| == |s|
    ensures forall i :: 0 <= i < |s| ==> r[i] == LowerChar(s[i])
  {
    seq(|s|, i requires 0 <= i < |s| => LowerChar(s[i]))
  }

  /** Lower-casing twice is lower-casing once. */
  lemma LowerIdempotent(s: string)
    ensures Lower(Lower(s)) == Lower(s)
  {
    assert forall i :: 0 <= i < |s| ==> Lower(Lower(s))[i] == Lower(s)[i];
  }

  predicate StartsWith(s: string, prefix: string) {
    |prefix| <= |s| && s[..|prefix|] == prefix
  }

  /** `key` occurs in `s` starting at index `i`. */
  predicate OccursAt(s: string, key: string, i: int) {
    0 <= i <= |s| - |key| && s[i..i + |key|] == key
  }

  /** `s.includes(key)`: some index of `s` starts a copy of `key`. */
  function Includes(s: string, key: string): (b: bool)
    ensures b ==> |key| <= |s|
    ensures StartsWith(s, key) ==> b
  {
    assert StartsWith(s, key) ==> OccursAt(s, key, 0);
    exists i | 0 <= i <= |s| - |key| :: OccursAt(s, key, i)
  }

  /** Every string includes the empty string. */
  lemma IncludesEmpty(s: string)
    ensures Includes(s, "")
  {
    assert OccursAt(s, "", 0);
  }

  /** A key holding a character the string lacks is not included in it. */
  lemma NotIncludesMissingChar(s: string, key: string, c: char)
    requires c in key && c !in s
    ensures !Includes(s, key)
  {
    var k :| 0 <= k < |key| && key[k] == c;
    forall i | 0 <= i <= |s| - |key|
      ensures !OccursAt(s, key, i)
    {
      assert s[i..i + |key|][k] == s[i + k] != c;
    }
  }
}
