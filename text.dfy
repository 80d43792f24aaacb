/** Text operations the calculator relies on: JavaScript's `toLowerCase`
    (restricted to ASCII letters) and `String.prototype.includes`, plus the
    `keywords.some(k => text.includes(k))` idiom the keyword tables use. */
module Text {

  /** ASCII lower-casing of one character; every other character is kept. */
  function LowerChar(c: char): char
  {
    if 'A' <= c <= 'Z' then (c as int + 32) as char else c
  }

  predicate IsUpper(c: char)
  {
    'A' <= c <= 'Z'
  }

  /** No ASCII upper-case letter occurs in `s`. */
  predicate IsLowerCase(s: string)
  {
    forall i :: 0 <= i < |s| ==> !IsUpper(s[i])
  }

  /** `s.toLowerCase()` over ASCII. */
  function Lower(s: string): (r: string)
    ensures |r| == |s|
  {
    if s == [] then [] else [LowerChar(s[0])] + Lower(s[1..])
  }

  /** Lower-casing maps each character on its own and leaves no upper-case
      letter behind. */
  lemma {:induction false} LowerEach(s: string)
    ensures forall i :: 0 <= i < |s| ==> Lower(s)[i] == LowerChar(s[i])
    ensures IsLowerCase(Lower(s))
  {
    if s != [] {
      LowerEach(s[1..]);
      assert forall i :: 1 <= i < |s| ==> Lower(s)[i] == Lower(s[1..])[i - 1];
    }
  }

  /** Lower-casing text that is already lower case changes nothing; in
      particular lower-casing is idempotent. */
  lemma LowerOfLowerCase(s: string)
    requires IsLowerCase(s)
    ensures Lower(s) == s
  {
    LowerEach(s);
    assert forall i :: 0 <= i < |s| ==> Lower(s)[i] == s[i];
  }

  lemma LowerIdempotent(s: string)
    ensures Lower(Lower(s)) == Lower(s)
  {
    LowerEach(s);
    LowerOfLowerCase(Lower(s));
  }

  /** Lower-casing works piece by piece. */
  lemma {:induction false} LowerAppend(a: string, b: string)
    ensures Lower(a + b) == Lower(a) + Lower(b)
  {
    LowerEach(a);
    LowerEach(b);
    LowerEach(a + b);
    assert forall i :: 0 <= i < |a| ==> (a + b)[i] == a[i];
    assert forall i :: |a| <= i < |a| + |b| ==> (a + b)[i] == b[i - |a|];
  }

  /** `LowerAppend` for texts whose lower-cased forms are known. */
  lemma LowerJoin(a: string, b: string, la: string, lb: string)
    requires Lower(a) == la && Lower(b) == lb
    ensures Lower(a + b) == la + lb
  {
    LowerAppend(a, b);
  }

  /** `p` occurs in `s` starting at index `i`. */
  predicate OccursAt(s: string, p: string, i: nat)
  {
    i + |p| <= |s| && s[i..i + |p|] == p
  }

  /** `s.includes(p)`: `p` occurs somewhere in `s`. */
  predicate Contains(s: string, p: string)
  {
    exists i: nat | i <= |s| :: OccursAt(s, p, i)
  }

  /** A pattern holding a character the text lacks does not occur in it. */
  lemma NotContainedWithoutChar(s: string, p: string, c: char)
    requires c in p && c !in s
    ensures !Contains(s, p)
  {
    var j :| 0 <= j < |p| && p[j] == c;
    forall i: nat | i + |p| <= |s| ensures !OccursAt(s, p, i) {
      assert s[i..i + |p|][j] == s[i + j];
    }
  }

  /** A pattern longer than the text does not occur in it. */
  lemma NotContainedWhenLonger(s: string, p: string)
    requires |p| > |s|
    ensures !Contains(s, p)
  {
  }

  /** An occurrence in `a + b` lies within `a` or within `b` when `a` ends
      with a character the pattern lacks. */
  lemma SplitAfterSeparator(a: string, b: string, p: string)
    requires |a| > 0 && a[|a| - 1] !in p
    requires !Contains(a, p) && !Contains(b, p)
    ensures !Contains(a + b, p)
  {
    forall i: nat | i + |p| <= |a + b| ensures !OccursAt(a + b, p, i) {
      if i + |p| <= |a| {
        assert (a + b)[i..i + |p|] == a[i..i + |p|];
        assert !OccursAt(a, p, i);
      } else if i >= |a| {
        assert (a + b)[i..i + |p|] == b[i - |a|..i - |a| + |p|];
        assert !OccursAt(b, p, i - |a|);
      } else {
        assert (a + b)[i..i + |p|][|a| - 1 - i] == a[|a| - 1];
      }
    }
  }

  /** `keywords.some(k => s.includes(k))`. */
  predicate ContainsAny(s: string, keywords: seq<string>)
  {
    exists j :: 0 <= j < |keywords| && Contains(s, keywords[j])
  }

  /** Matching any keyword of a list matches any keyword of a longer list
      that starts with it. */
  lemma ContainsAnyOfExtension(s: string, keywords: seq<string>, more: seq<string>)
    requires ContainsAny(s, keywords)
    ensures ContainsAny(s, keywords + more)
  {
    var j :| 0 <= j < |keywords| && Contains(s, keywords[j]);
    assert (keywords + more)[j] == keywords[j];
  }
}
