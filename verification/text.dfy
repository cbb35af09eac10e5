/** String and sequence operations the poem search relies on: SQL substring matching,
    Python's `str.strip` and `" ".join`, and order-preserving selection. */
module Text {

  /** `needle` occurs in `haystack` as a contiguous run. This is what SQL `LIKE '%needle%'`
      tests when `needle` holds no wildcard character. */
  predicate Contains(haystack: string, needle: string)
  {
    exists i | 0 <= i <= |haystack| - |needle| :: OccursAt(haystack, needle, i)
  }

  /** `needle` occurs in `haystack` starting at index `i`. */
  predicate OccursAt(haystack: string, needle: string, i: nat)
  {
    i + |needle| <= |haystack| && haystack[i..i + |needle|] == needle
  }

  lemma ContainsInfix(a: string, needle: string, b: string)
    ensures Contains(a + needle + b, needle)
  {
    var h := a + needle + b;
    assert OccursAt(h, needle, |a|);
  }

  lemma ContainsTransitive(h: string, m: string, n: string)
    requires Contains(h, m) && Contains(m, n)
    ensures Contains(h, n)
  {
    var i: nat :| i <= |h| - |m| && OccursAt(h, m, i);
    var j: nat :| j <= |m| - |n| && OccursAt(m, n, j);
    forall k | 0 <= k < |n|
      ensures h[i + j..i + j + |n|][k] == n[k]
    {
      assert h[i + j + k] == h[i..i + |m|][j + k] == m[j + k] == m[j..j + |n|][k];
    }
    assert OccursAt(h, n, i + j);
  }

  /** The characters Python's `str.isspace` accepts: those with bidirectional class WS, B or S,
      or general category Zs. It includes the ideographic space U+3000. */
  predicate IsSpace(ch: char)
  {
    || ('\t' <= ch <= '\r')
    || ('\U{1C}' <= ch <= ' ')
    || ch == '\U{85}' || ch == '\U{A0}' || ch == '\U{1680}'
    || ('\U{2000}' <= ch <= '\U{200A}')
    || ch == '\U{2028}' || ch == '\U{2029}' || ch == '\U{202F}' || ch == '\U{205F}'
    || ch == '\U{3000}'
  }

  /** How many whitespace characters `s` starts with. */
  function LeadingSpaces(s: string): (n: nat)
    ensures n <= |s|
    ensures forall k | 0 <= k < n :: IsSpace(s[k])
    ensures n < |s| ==> !IsSpace(s[n])
  {
    if s != [] && IsSpace(s[0]) then 1 + LeadingSpaces(s[1..]) else 0
  }

  /** Where the trailing whitespace of `s` begins, looking no further left than `lo`. */
  function TrailingStart(s: string, lo: nat): (m: nat)
    requires lo <= |s|
    ensures lo <= m <= |s|
    ensures forall k | m <= k < |s| :: IsSpace(s[k])
    ensures m > lo ==> !IsSpace(s[m - 1])
    decreases |s|
  {
    if |s| > lo && IsSpace(s[|s| - 1]) then TrailingStart(s[..|s| - 1], lo) else |s|
  }

  /** `r` is the run `s[i..j]`, and everything of `s` outside that run is whitespace. */
  predicate TrimmedRun(s: string, r: string, i: nat, j: nat)
  {
    && i <= j <= |s| && r == s[i..j]
    && (forall k | 0 <= k < i :: IsSpace(s[k]))
    && (forall k | j <= k < |s| :: IsSpace(s[k]))
  }

  /** Python's `s.strip()`: the run of `s` left once whitespace is removed from both ends. */
  function Strip(s: string): (r: string)
    ensures exists i: nat, j: nat :: TrimmedRun(s, r, i, j)
    ensures r != "" ==> !IsSpace(r[0]) && !IsSpace(r[|r| - 1])
    ensures r == "" <==> forall k | 0 <= k < |s| :: IsSpace(s[k])
  {
    var i := LeadingSpaces(s);
    var j := TrailingStart(s, i);
    assert TrimmedRun(s, s[i..j], i, j);
    s[i..j]
  }

  lemma {:induction false} StripIdempotent(s: string)
    ensures Strip(Strip(s)) == Strip(s)
  {
    var r := Strip(s);
    assert LeadingSpaces(r) == 0;
    assert TrailingStart(r, 0) == |r|;
    assert r[0..|r|] == r;
  }

  /** Python's `" ".join(words)`: every word occurs in the result. */
  function Join(words: seq<string>): (r: string)
    ensures forall k | 0 <= k < |words| :: Contains(r, words[k])
  {
    if words == [] then ""
    else if |words| == 1 then
      ContainsInfix("", words[0], "");
      assert "" + words[0] + "" == words[0];
      words[0]
    else
      var rest := Join(words[1..]);
      var r := words[0] + " " + rest;
      ContainsInfix("", words[0], " " + rest);
      assert "" + words[0] + (" " + rest) == r;
      ContainsInfix(words[0] + " ", rest, "");
      assert words[0] + " " + rest + "" == r;
      assert forall k | 1 <= k < |words| :: Contains(r, words[k]) by {
        forall k | 1 <= k < |words| ensures Contains(r, words[k]) {
          assert words[k] == words[1..][k - 1];
          ContainsTransitive(r, rest, words[k]);
        }
      }
      r
  }

  lemma {:induction false} JoinAppend(a: seq<string>, b: seq<string>)
    requires a != [] && b != []
    ensures Join(a + b) == Join(a) + " " + Join(b)
  {
    if |a| == 1 {
      assert (a + b)[1..] == b;
    } else {
      assert (a + b)[1..] == a[1..] + b;
      JoinAppend(a[1..], b);
    }
  }

  /** Joining words none of which is empty gives the empty string only for no words. */
  lemma {:induction false} JoinEmpty(words: seq<string>)
    requires forall k | 0 <= k < |words| :: words[k] != ""
    ensures Join(words) == "" <==> words == []
  {
    if |words| > 1 {
      assert |Join(words)| >= |words[0]| + 1;
    }
  }

  /** The concatenation of a sequence of sequences. */
  function Flatten<T>(xss: seq<seq<T>>): seq<T>
  {
    if xss == [] then [] else Flatten(xss[..|xss| - 1]) + xss[|xss| - 1]
  }

  /** `a` is `b` with some elements left out, the rest kept in their order. */
  ghost predicate IsSubsequence<T>(a: seq<T>, b: seq<T>)
    decreases |b|
  {
    || a == []
    || (&& b != []
        && (|| (a[|a| - 1] == b[|b| - 1] && IsSubsequence(a[..|a| - 1], b[..|b| - 1]))
            || IsSubsequence(a, b[..|b| - 1])))
  }

  lemma SubsequenceExtend<T>(a: seq<T>, b: seq<T>, x: T)
    requires IsSubsequence(a, b)
    ensures IsSubsequence(a + [x], b + [x])
    ensures IsSubsequence(a, b + [x])
  {
    assert (a + [x])[..|a|] == a;
    assert (b + [x])[..|b|] == b;
  }
}
