/**
  The string operations the front end relies on: `toLowerCase` (restricted to
  ASCII letters), `includes` (substring test) and `trim` (JavaScript white space).
 */
module Text {

  /** `toLowerCase` on one character, for the ASCII letters A-Z only. */
  function LowerChar(c: char): char
  {
    if 'A' <= c <= 'Z' then (c as int + 32) as char else c
  }

  /** `s.toLowerCase()`, character by character. */
  function Lower(s: string): (r: string)
    ensures |r| == |s|
    ensures forall i :: 0 <= i < |s| ==> r[i] == LowerChar(s[i])
  {
    seq(|s|, i requires 0 <= i < |s| => LowerChar(s[i]))
  }

  /** Lower-casing twice is lower-casing once. */
  lemma LowerIdempotent(s: string)
    ensures Lower(Lower(s)) == Lower(s)
  {
    assert forall i :: 0 <= i < |s| ==> LowerChar(LowerChar(s[i])) == LowerChar(s[i]);
  }

  /** No upper-case ASCII letter is left after lower-casing. */
  lemma LowerHasNoUpper(s: string)
    ensures forall i :: 0 <= i < |Lower(s)| ==> !('A' <= Lower(s)[i] <= 'Z')
  {
  }

  /** Lower-casing commutes with taking a prefix. */
  lemma LowerPrefix(a: string, b: string)
    requires |a| <= |b| && b[..|a|] == a
    ensures Lower(b)[..|a|] == Lower(a)
  {
    forall k | 0 <= k < |a| ensures Lower(b)[..|a|][k] == Lower(a)[k] {
      assert b[k] == a[k];
    }
  }

  /** `s.includes(sub)`: `sub` occurs in `s` at some offset (the empty string occurs everywhere). */
  predicate Contains(s: string, sub: string)
  {
    exists i :: 0 <= i <= |s| - |sub| && OccursAt(s, sub, i)
  }

  /** `sub` occurs in `s` starting at offset `i`. */
  predicate OccursAt(s: string, sub: string, i: int)
  {
    0 <= i <= |s| - |sub| && s[i..i + |sub|] == sub
  }

  lemma ContainsSelf(s: string)
    ensures Contains(s, s)
  {
    assert OccursAt(s, s, 0);
  }

  /** If `s` contains `b`, it contains every prefix of `b`. */
  lemma ContainsPrefix(s: string, a: string, b: string)
    requires |a| <= |b| && b[..|a|] == a && Contains(s, b)
    ensures Contains(s, a)
  {
    var i :| 0 <= i <= |s| - |b| && OccursAt(s, b, i);
    assert s[i..i + |a|] == s[i..i + |b|][..|a|];
    assert OccursAt(s, a, i);
  }

  lemma ContainsTooLong(s: string, sub: string)
    requires |s| < |sub|
    ensures !Contains(s, sub)
  {
  }

  /** The characters JavaScript's `trim` removes: WhiteSpace and LineTerminator of ECMA-262. */
  predicate IsWhiteSpace(c: char)
  {
    var k := c as int;
    || k == 0x09 || k == 0x0A || k == 0x0B || k == 0x0C || k == 0x0D || k == 0x20
    || k == 0xA0 || k == 0x1680 || (0x2000 <= k <= 0x200A) || k == 0x2028 || k == 0x2029
    || k == 0x202F || k == 0x205F || k == 0x3000 || k == 0xFEFF
  }

  /** Every character of `s` is white space. */
  predicate IsBlank(s: string)
  {
    forall i :: 0 <= i < |s| ==> IsWhiteSpace(s[i])
  }

  /** Drops leading white space: the result is a suffix of `s` that starts with a non-space. */
  function TrimStart(s: string): (r: string)
    ensures |r| <= |s| && r == s[|s| - |r|..]
    ensures IsBlank(s[..|s| - |r|])
    ensures r != [] ==> !IsWhiteSpace(r[0])
  {
    if s != [] && IsWhiteSpace(s[0]) then
      var r := TrimStart(s[1..]);
      assert s[|s| - |r|..] == s[1..][|s| - 1 - |r|..];
      var blank := s[..|s| - |r|];
      assert IsBlank(blank) by {
        forall i | 0 <= i < |blank| ensures IsWhiteSpace(blank[i]) {
          if i > 0 {
            assert blank[i] == s[1..][..|s| - 1 - |r|][i - 1];
          }
        }
      }
      r
    else s
  }

  /** Drops trailing white space: the result is a prefix of `s` that ends with a non-space. */
  function TrimEnd(s: string): (r: string)
    ensures |r| <= |s| && r == s[..|r|]
    ensures IsBlank(s[|r|..])
    ensures r != [] ==> !IsWhiteSpace(r[|r| - 1])
  {
    if s != [] && IsWhiteSpace(s[|s| - 1]) then
      var r := TrimEnd(s[..|s| - 1]);
      assert s[..|r|] == s[..|s| - 1][..|r|];
      var blank := s[|r|..];
      assert IsBlank(blank) by {
        forall i | 0 <= i < |blank| ensures IsWhiteSpace(blank[i]) {
          if i < |s| - 1 - |r| {
            assert blank[i] == s[..|s| - 1][|r|..][i];
          }
        }
      }
      r
    else s
  }

  /** `s.trim()`. */
  function Trim(s: string): string
  {
    TrimEnd(TrimStart(s))
  }

  /** `s.trim()` is the empty (falsy) string exactly when `s` consists of white space only. */
  lemma TrimEmptyIffBlank(s: string)
    ensures Trim(s) == [] <==> IsBlank(s)
  {
    if IsBlank(s) {
      BlankTrimStart(s);
    } else {
      var i :| 0 <= i < |s| && !IsWhiteSpace(s[i]);
      NonBlankTrimStart(s, i);
      TrimEndKeepsHead(TrimStart(s));
    }
  }

  lemma {:induction false} BlankTrimStart(s: string)
    requires IsBlank(s)
    ensures TrimStart(s) == []
  {
    if s != [] {
      assert forall i :: 0 <= i < |s| - 1 ==> s[1..][i] == s[i + 1];
      BlankTrimStart(s[1..]);
    }
  }

  lemma {:induction false} NonBlankTrimStart(s: string, i: nat)
    requires i < |s| && !IsWhiteSpace(s[i])
    ensures TrimStart(s) != []
  {
    if IsWhiteSpace(s[0]) {
      assert s[1..][i - 1] == s[i];
      NonBlankTrimStart(s[1..], i - 1);
    }
  }

  lemma {:induction false} TrimEndKeepsHead(t: string)
    requires t != [] && !IsWhiteSpace(t[0])
    ensures TrimEnd(t) != []
  {
    if IsWhiteSpace(t[|t| - 1]) {
      var u := t[..|t| - 1];
      assert |t| > 1;
      assert u[0] == t[0];
      TrimEndKeepsHead(u);
    }
  }
}
