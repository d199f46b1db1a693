/** The few Python string operations the dashboard relies on: `str.lower`,
    the substring test `t in s`, `str.rfind`, slicing `s[:k]` and `str.join`. */
module Text {

  /** Python's `str.lower` on one character; only ASCII letters are mapped. */
  function LowerChar(c: char): char {
    if 'A' <= c <= 'Z' then (c as int - 'A' as int + 'a' as int) as char else c
  }

  function Lower(s: string): string {
    seq(|s|, i requires 0 <= i < |s| => LowerChar(s[i]))
  }

  predicate IsPrefix(p: string, s: string) {
    |p| <= |s| && s[..|p|] == p
  }

  /** `p` occurs in `s` starting at index `i`. */
  ghost predicate OccursAt(p: string, s: string, i: int) {
    0 <= i && i + |p| <= |s| && s[i..i + |p|] == p
  }

  /** The meaning of Python's `p in s` for strings. */
  ghost predicate Mentions(s: string, p: string) {
    exists i :: OccursAt(p, s, i)
  }

  /** When `p` is not a prefix of a non-empty `s`, its occurrences are those in `s[1..]`. */
  lemma MentionsTail(s: string, p: string)
    requires s != [] && !IsPrefix(p, s)
    ensures Mentions(s, p) <==> Mentions(s[1..], p)
  {
    if Mentions(s, p) {
      var i :| OccursAt(p, s, i);
      assert i != 0;
      assert s[1..][i - 1..i - 1 + |p|] == s[i..i + |p|];
      assert OccursAt(p, s[1..], i - 1);
    }
    if Mentions(s[1..], p) {
      var i :| OccursAt(p, s[1..], i);
      assert s[1..][i..i + |p|] == s[i + 1..i + 1 + |p|];
      assert OccursAt(p, s, i + 1);
    }
  }

  /** Python's substring test `p in s`, searching from the left. */
  function Contains(s: string, p: string): (b: bool)
    ensures b <==> Mentions(s, p)
    decreases |s|
  {
    if IsPrefix(p, s) then
      assert OccursAt(p, s, 0);
      true
    else if s == [] then
      false
    else
      MentionsTail(s, p);
      Contains(s[1..], p)
  }

  /** Python's `any(t in s for t in terms)`. */
  function ContainsAny(s: string, terms: seq<string>): (b: bool)
    ensures b <==> exists k :: 0 <= k < |terms| && Mentions(s, terms[k])
    decreases |terms|
  {
    if terms == [] then false
    else
      var rest := ContainsAny(s, terms[1..]);
      assert forall k :: 1 <= k < |terms| ==> terms[k] == terms[1..][k - 1];
      Contains(s, terms[0]) || rest
  }

  /** Python's `s.rfind(c)` for a single character: the index of its last occurrence, or -1. */
  function RFind(s: string, c: char): (r: int)
    ensures -1 <= r < |s|
    ensures r >= 0 ==> s[r] == c && forall j :: r < j < |s| ==> s[j] != c
    ensures r == -1 <==> c !in s
    decreases |s|
  {
    if s == [] then -1
    else if s[|s| - 1] == c then |s| - 1
    else
      var r := RFind(s[..|s| - 1], c);
      assert s == s[..|s| - 1] + [s[|s| - 1]];
      r
  }

  /** Python's `s[:stop]`: a negative `stop` counts from the end, and the result is clamped to `s`. */
  function SliceTo(s: string, stop: int): string {
    if stop >= 0 then s[..if stop <= |s| then stop else |s|]
    else s[..if |s| + stop >= 0 then |s| + stop else 0]
  }

  /** Python's `sep.join(parts)`. */
  function Join(sep: string, parts: seq<string>): string
    decreases |parts|
  {
    if parts == [] then ""
    else if |parts| == 1 then parts[0]
    else parts[0] + sep + Join(sep, parts[1..])
  }
}
