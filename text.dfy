/**
 * The string operations of the JavaScript standard library that the processor uses:
 * `toLowerCase`, `startsWith`, `endsWith` and `includes`.
 */
module Text {

  /** Lower-case of one character; only the ASCII letters A-Z change. */
  function LowerChar(c: char): char
  {
    if 'A' <= c <= 'Z' then (c as int - 'A' as int + 'a' as int) as char else c
  }

  /** `s.toLowerCase()`, on ASCII letters. */
  function Lower(s: string): (r: string)
    ensures |r| == |s|
    ensures forall i :: 0 <= i < |s| ==> r[i] == LowerChar(s[i])
  {
    seq(|s|, i requires 0 <= i < |s| => LowerChar(s[i]))
  }

  /** `s.startsWith(prefix)`. */
  predicate StartsWith(s: string, prefix: string)
  {
    |prefix| <= |s| && s[..|prefix|] == prefix
  }

  /** `s.endsWith(suffix)`. */
  predicate EndsWith(s: string, suffix: string)
  {
    |suffix| <= |s| && s[|s| - |suffix|..] == suffix
  }

  /** `sub` occurs in `s` starting at index `i`. */
  predicate OccursAt(s: string, sub: string, i: int)
  {
    0 <= i && i + |sub| <= |s| && s[i..i + |sub|] == sub
  }

  /** `s.includes(sub)`. */
  predicate Contains(s: string, sub: string)
  {
    exists i :: 0 <= i <= |s| - |sub| && OccursAt(s, sub, i)
  }

  /** Lower-casing commutes with taking a suffix. */
  lemma LowerSuffix(s: string, k: nat)
    requires k <= |s|
    ensures Lower(s)[k..] == Lower(s[k..])
  {
  }

  /** A string that lacks one of the characters of `sub` does not contain `sub`. */
  lemma {:induction false} AbsentCharExcludes(s: string, sub: string, j: nat)
    requires j < |sub| && sub[j] !in s
    ensures !Contains(s, sub)
  {
    forall i | 0 <= i <= |s| - |sub|
      ensures !OccursAt(s, sub, i)
    {
      assert s[i..i + |sub|][j] == s[i + j];
    }
  }

  /** An occurrence in `a` is an occurrence in `a + b`. */
  lemma {:induction false} ContainsInPrefix(a: string, b: string, sub: string)
    requires Contains(a, sub)
    ensures Contains(a + b, sub)
  {
    var i :| 0 <= i <= |a| - |sub| && OccursAt(a, sub, i);
    assert (a + b)[i..i + |sub|] == a[i..i + |sub|];
    assert OccursAt(a + b, sub, i);
  }

  /**
   * When neither half contains `sub` and the last character of `a` does not
   * occur in `sub` before its last position, no occurrence can straddle the
   * join, so `a + b` does not contain `sub` either.
   */
  lemma {:induction false} ContainsAcrossJoin(a: string, b: string, sub: string)
    requires !Contains(a, sub) && !Contains(b, sub)
    requires |a| > 0 && |sub| > 0 && a[|a| - 1] !in sub[..|sub| - 1]
    ensures !Contains(a + b, sub)
  {
    forall i | 0 <= i <= |a + b| - |sub|
      ensures !OccursAt(a + b, sub, i)
    {
      if i + |sub| <= |a| {
        assert (a + b)[i..i + |sub|] == a[i..i + |sub|];
        assert !OccursAt(a, sub, i);
      } else if i >= |a| {
        assert (a + b)[i..i + |sub|] == b[i - |a|..i - |a| + |sub|];
        assert !OccursAt(b, sub, i - |a|);
      } else {
        var k := |a| - 1 - i;
        assert (a + b)[i..i + |sub|][k] == a[|a| - 1];
        assert sub[..|sub| - 1][k] == sub[k];
      }
    }
  }
}
