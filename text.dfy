/**
 * The JavaScript string primitives the chat front-end relies on: the `\s` and
 * `\w` character classes of regular expressions, `String.prototype.trim`,
 * `toLowerCase` and `includes`.
 */
module Text {

  /** The code points JavaScript treats as white space (WhiteSpace and
      LineTerminator): both `\s` and `trim` use exactly this set. */
  predicate IsSpace(c: char) {
    var n := c as int;
    n == 0x09 || n == 0x0A || n == 0x0B || n == 0x0C || n == 0x0D || n == 0x20 ||
    n == 0xA0 || n == 0x1680 || (0x2000 <= n <= 0x200A) ||
    n == 0x2028 || n == 0x2029 || n == 0x202F || n == 0x205F || n == 0x3000 || n == 0xFEFF
  }

  /** The regular-expression class `\w`: `[A-Za-z0-9_]`. */
  predicate IsWordChar(c: char) {
    ('a' <= c <= 'z') || ('A' <= c <= 'Z') || ('0' <= c <= '9') || c == '_'
  }

  predicate AllSpace(s: string) {
    forall i | 0 <= i < |s| :: IsSpace(s[i])
  }

  predicate AllWord(s: string) {
    forall i | 0 <= i < |s| :: IsWordChar(s[i])
  }

  /** The end of the run of white space in `s[lo..hi]` that starts at `lo`:
      a greedy `\s*` matched from `lo`. */
  function SpanSpace(s: string, lo: nat, hi: nat): (n: nat)
    requires lo <= hi <= |s|
    ensures lo <= n <= hi
    ensures forall k | lo <= k < n :: IsSpace(s[k])
    ensures n < hi ==> !IsSpace(s[n])
    decreases hi - lo
  {
    if lo < hi && IsSpace(s[lo]) then SpanSpace(s, lo + 1, hi) else lo
  }

  /** The end of the run of word characters in `s[lo..hi]` that starts at
      `lo`: a greedy `\w*` matched from `lo`. */
  function SpanWord(s: string, lo: nat, hi: nat): (n: nat)
    requires lo <= hi <= |s|
    ensures lo <= n <= hi
    ensures forall k | lo <= k < n :: IsWordChar(s[k])
    ensures n < hi ==> !IsWordChar(s[n])
    decreases hi - lo
  {
    if lo < hi && IsWordChar(s[lo]) then SpanWord(s, lo + 1, hi) else lo
  }

  /** The start of the run of white space that ends `s[lo..hi]`. */
  function BackSpace(s: string, lo: nat, hi: nat): (n: nat)
    requires lo <= hi <= |s|
    ensures lo <= n <= hi
    ensures forall k | n <= k < hi :: IsSpace(s[k])
    ensures lo < n ==> !IsSpace(s[n - 1])
    decreases hi - lo
  {
    if lo < hi && IsSpace(s[hi - 1]) then BackSpace(s, lo, hi - 1) else hi
  }

  /** `String.prototype.trim`. */
  function Trim(s: string): (r: string)
    ensures |r| <= |s|
    ensures r == [] || (!IsSpace(r[0]) && !IsSpace(r[|r| - 1]))
    ensures r == [] <==> AllSpace(s)
  {
    var lo := SpanSpace(s, 0, |s|);
    s[lo..BackSpace(s, lo, |s|)]
  }

  /** The three scans are determined by their contracts. */
  lemma SpanSpaceIs(s: string, lo: nat, hi: nat, m: nat)
    requires lo <= m <= hi <= |s|
    requires forall k | lo <= k < m :: IsSpace(s[k])
    requires m < hi ==> !IsSpace(s[m])
    ensures SpanSpace(s, lo, hi) == m
  {
  }

  lemma SpanWordIs(s: string, lo: nat, hi: nat, m: nat)
    requires lo <= m <= hi <= |s|
    requires forall k | lo <= k < m :: IsWordChar(s[k])
    requires m < hi ==> !IsWordChar(s[m])
    ensures SpanWord(s, lo, hi) == m
  {
  }

  lemma BackSpaceIs(s: string, lo: nat, hi: nat, m: nat)
    requires lo <= m <= hi <= |s|
    requires forall k | m <= k < hi :: IsSpace(s[k])
    requires lo < m ==> !IsSpace(s[m - 1])
    ensures BackSpace(s, lo, hi) == m
  {
  }

  /** Trimming a string whose ends are not white space leaves it as it is,
      whatever white space surrounds it. */
  lemma TrimOf(lead: string, t: string, trail: string)
    requires AllSpace(lead) && AllSpace(trail)
    requires t == [] || (!IsSpace(t[0]) && !IsSpace(t[|t| - 1]))
    ensures Trim(lead + t + trail) == t
  {
    var s := lead + t + trail;
    if t == [] {
      assert s == lead + trail;
      assert forall k | 0 <= k < |s| :: IsSpace(s[k]) by {
        forall k | 0 <= k < |s| ensures IsSpace(s[k]) {
          if k < |lead| { assert s[k] == lead[k]; } else { assert s[k] == trail[k - |lead|]; }
        }
      }
    } else {
      var a, b := |lead|, |lead| + |t|;
      assert forall k | 0 <= k < a :: s[k] == lead[k];
      assert forall k | b <= k < |s| :: s[k] == trail[k - b];
      assert s[a] == t[0] && s[b - 1] == t[|t| - 1];
      SpanSpaceIs(s, 0, |s|, a);
      BackSpaceIs(s, a, |s|, b);
      assert s[a..b] == t;
    }
  }

  /** `toLowerCase` on one character, for the ASCII letters. */
  function LowerChar(c: char): (r: char)
    ensures 'A' <= c <= 'Z' ==> r as int == c as int + 32
    ensures !('A' <= c <= 'Z') ==> r == c
    ensures !('A' <= r <= 'Z')
  {
    if 'A' <= c <= 'Z' then (c as int + 32) as char else c
  }

  /** `toLowerCase`, character by character. */
  function Lower(s: string): (r: string)
    ensures |r| == |s|
    ensures forall i | 0 <= i < |s| :: r[i] == LowerChar(s[i])
  {
    if s == [] then [] else [LowerChar(s[0])] + Lower(s[1..])
  }

  /** Lower-casing twice changes nothing more than lower-casing once. */
  lemma LowerIdempotent(s: string)
    ensures Lower(Lower(s)) == Lower(s)
  {
    var once := Lower(s);
    assert forall i | 0 <= i < |s| :: Lower(once)[i] == LowerChar(once[i]) == once[i];
  }

  /** `needle` occurs in `s` starting at index `i`. */
  predicate OccursAt(s: string, needle: string, i: nat) {
    i + |needle| <= |s| && s[i..i + |needle|] == needle
  }

  /** Moving past a first character that does not start an occurrence keeps
      every later occurrence, one index earlier. */
  lemma OccursAfterFirst(s: string, needle: string)
    requires |s| >= |needle| && s[..|needle|] != needle
    ensures (exists i: nat :: OccursAt(s, needle, i)) <==> (exists j: nat :: OccursAt(s[1..], needle, j))
  {
    if exists i: nat :: OccursAt(s, needle, i) {
      var i: nat :| OccursAt(s, needle, i);
      assert i != 0;
      assert s[1..][i - 1..i - 1 + |needle|] == s[i..i + |needle|];
      assert OccursAt(s[1..], needle, i - 1);
    }
    if exists j: nat :: OccursAt(s[1..], needle, j) {
      var j: nat :| OccursAt(s[1..], needle, j);
      assert s[1..][j..j + |needle|] == s[j + 1..j + 1 + |needle|];
      assert OccursAt(s, needle, j + 1);
    }
  }

  /** `s.includes(needle)`: `needle` occurs somewhere in `s`. */
  function Contains(s: string, needle: string): (r: bool)
    ensures r <==> exists i: nat :: OccursAt(s, needle, i)
    decreases |s|
  {
    if |s| < |needle| then false
    else if s[..|needle|] == needle then
      assert OccursAt(s, needle, 0);
      true
    else
      OccursAfterFirst(s, needle);
      Contains(s[1..], needle)
  }

  /** A string contains every piece it is concatenated from. */
  lemma ContainsMiddle(a: string, b: string, c: string)
    ensures Contains(a + b + c, b)
  {
    var s := a + b + c;
    assert s[|a|..|a| + |b|] == b;
    assert OccursAt(s, b, |a|);
  }
}
