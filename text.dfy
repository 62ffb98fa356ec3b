/** The string primitives of the .NET base library that the core calls:
    `string.IsNullOrWhiteSpace`, `TrimEnd(char)`, ordinal case-insensitive
    comparison and substring search. */
module Text {
  import opened Wrappers

  /** `char.IsWhiteSpace`: the Unicode space, line and paragraph separators
      together with U+0009..U+000D and U+0085. */
  predicate IsWhiteSpace(c: char) {
    || ('\U{9}' <= c <= '\U{D}')
    || c == ' ' || c == '\U{85}' || c == '\U{A0}' || c == '\U{1680}'
    || ('\U{2000}' <= c <= '\U{200A}')
    || c == '\U{2028}' || c == '\U{2029}' || c == '\U{202F}' || c == '\U{205F}' || c == '\U{3000}'
  }

  /** True when every character of `s` is white space (so also for ""). */
  function AllWhiteSpace(s: string): (b: bool)
    ensures b <==> forall i :: 0 <= i < |s| ==> IsWhiteSpace(s[i])
  {
    if s == [] then true else IsWhiteSpace(s[0]) && AllWhiteSpace(s[1..])
  }

  /** `string.IsNullOrWhiteSpace`: null, empty, or white space only. */
  predicate IsBlank(s: Option<string>) {
    s.None? || AllWhiteSpace(s.value)
  }

  /** A string that is not blank has a visible character. */
  lemma VisibleChar(s: Option<string>) returns (i: nat)
    requires !IsBlank(s)
    ensures s.Some? && i < |s.value| && !IsWhiteSpace(s.value[i])
  {
    i :| i < |s.value| && !IsWhiteSpace(s.value[i]);
  }

  /** Ordinal case folding, restricted to ASCII letters. */
  function LowerChar(c: char): char {
    if 'A' <= c <= 'Z' then (c as int + 32) as char else c
  }

  /** `ToLowerInvariant`, on ASCII letters: each character folded on its own. */
  function Lower(s: string): string {
    seq(|s|, i requires 0 <= i < |s| => LowerChar(s[i]))
  }

  /** What the case-insensitive comparisons rely on: folding keeps the
      length, maps each upper-case letter to its lower-case counterpart,
      leaves every other character alone, leaves no upper-case letter
      behind, and is idempotent. */
  lemma LowerRules(s: string)
    ensures |Lower(s)| == |s|
    ensures forall i :: 0 <= i < |s| && 'A' <= s[i] <= 'Z' ==>
      'a' <= Lower(s)[i] <= 'z' && Lower(s)[i] as int - s[i] as int == 'a' as int - 'A' as int
    ensures forall i :: 0 <= i < |s| && !('A' <= s[i] <= 'Z') ==> Lower(s)[i] == s[i]
    ensures forall i :: 0 <= i < |s| ==> !('A' <= Lower(s)[i] <= 'Z')
    ensures Lower(Lower(s)) == Lower(s)
  {
    var r := Lower(s);
    forall i | 0 <= i < |s| ensures LowerChar(r[i]) == r[i] {
      assert r[i] == LowerChar(s[i]);
    }
    assert Lower(r) == r;
  }

  /** Folding a concatenation folds each part. */
  lemma LowerOfConcat(a: string, b: string)
    ensures Lower(a + b) == Lower(a) + Lower(b)
  {
    var l, r := Lower(a + b), Lower(a) + Lower(b);
    forall i | 0 <= i < |a + b| ensures l[i] == r[i] {
      if i < |a| {
        assert (a + b)[i] == a[i];
      } else {
        assert (a + b)[i] == b[i - |a|];
      }
    }
  }

  /** Folding commutes with taking a slice. */
  lemma LowerOfSlice(s: string, i: nat, j: nat)
    requires i <= j <= |s|
    ensures Lower(s)[i..j] == Lower(s[i..j])
  {
  }

  /** `string.Equals(a, b, StringComparison.OrdinalIgnoreCase)` on ASCII. */
  predicate EqualsIgnoreCase(a: string, b: string) {
    Lower(a) == Lower(b)
  }

  predicate MatchAt(s: string, t: string, i: nat)
    requires i + |t| <= |s|
  {
    s[i..i + |t|] == t
  }

  /** `s.Contains(t)`: `t` occurs somewhere in `s`. */
  predicate Contains(s: string, t: string) {
    exists i: nat :: i + |t| <= |s| && MatchAt(s, t, i)
  }

  /** A text contains every piece it is built around. */
  lemma ContainsMiddle(a: string, t: string, b: string)
    ensures Contains(a + t + b, t)
  {
    var s := a + t + b;
    assert s[|a|..|a| + |t|] == t;
    assert MatchAt(s, t, |a|);
  }

  /** A text in which the first two letters of `t` never stand side by side
      does not contain `t`. */
  lemma NoAdjacentPairNoMatch(s: string, t: string)
    requires |t| >= 2
    requires forall k :: 0 <= k < |s| - 1 ==> s[k] != t[0] || s[k + 1] != t[1]
    ensures !Contains(s, t)
  {
    forall i: nat | i + |t| <= |s| ensures !MatchAt(s, t, i) {
      assert s[i..i + |t|][0] == s[i] && s[i..i + |t|][1] == s[i + 1];
    }
  }

  /** A text in which the first letter of `t` does not occur does not contain `t`. */
  lemma MissingFirstCharNoMatch(s: string, t: string)
    requires |t| >= 1
    requires forall k :: 0 <= k < |s| ==> s[k] != t[0]
    ensures !Contains(s, t)
  {
    forall i: nat | i + |t| <= |s| ensures !MatchAt(s, t, i) {
      assert s[i..i + |t|][0] == s[i];
    }
  }

  /** `s.TrimEnd(c)`: removes every trailing occurrence of `c`. The result is
      the longest prefix of `s` that does not end in `c` while the rest is `c`s. */
  function TrimEnd(s: string, c: char): (r: string)
    ensures r <= s
    ensures forall i :: |r| <= i < |s| ==> s[i] == c
    ensures r == [] || r[|r| - 1] != c
  {
    if |s| > 0 && s[|s| - 1] == c then TrimEnd(s[..|s| - 1], c) else s
  }
}
