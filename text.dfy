/** String primitives the classifier and the memory layer rely on:
    ASCII lower-casing, substring tests and prefix tests. Strings are
    sequences of characters; no Unicode case mapping is modelled. */
module Text {
  import opened Wrappers

  /** ASCII lower-casing of one character (`String.prototype.toLowerCase`
      restricted to 'A'..'Z'). */
  function LowerChar(c: char): char {
    if 'A' <= c <= 'Z' then (c as int + 32) as char else c
  }

  function Lower(s: string): string {
    seq(|s|, i requires 0 <= i < |s| => LowerChar(s[i]))
  }

  predicate StartsWith(s: string, prefix: string) {
    |prefix| <= |s| && s[..|prefix|] == prefix
  }

  predicate EndsWith(s: string, suffix: string) {
    |suffix| <= |s| && s[|s| - |suffix|..] == suffix
  }

  /** `w` occurs in `s` starting at index `i`. */
  predicate OccursAt(s: string, w: string, i: int) {
    0 <= i && i + |w| <= |s| && s[i..i + |w|] == w
  }

  /** `s.includes(w)`: a substring test, not a word test. */
  predicate Contains(s: string, w: string) {
    exists i | 0 <= i <= |s| - |w| :: OccursAt(s, w, i)
  }

  /** Some listed word is a substring of `s`. */
  predicate ContainsAny(s: string, words: seq<string>) {
    exists w | w in words :: Contains(s, w)
  }

  lemma {:induction false} OccursAtContains(s: string, w: string, i: int)
    requires OccursAt(s, w, i)
    ensures Contains(s, w)
  {
  }

  /** A word with a character that `s` lacks cannot occur in `s`. */
  lemma {:induction false} AbsentCharacter(s: string, w: string, k: nat)
    requires k < |w| && w[k] !in s
    ensures !Contains(s, w)
  {
    forall i | 0 <= i <= |s| - |w|
      ensures !OccursAt(s, w, i)
    {
      assert s[i + k] in s;
      assert s[i..i + |w|][k] == s[i + k];
    }
  }

  /** When the first character of `w` does not appear among the first `k`
      characters of `s`, an occurrence can only start at `k` or later. */
  lemma {:induction false} SkipPrefix(s: string, w: string, k: nat)
    requires 0 < |w| && k <= |s| && w[0] !in s[..k]
    ensures Contains(s, w) <==> Contains(s[k..], w)
  {
    if Contains(s, w) {
      var i :| 0 <= i <= |s| - |w| && OccursAt(s, w, i);
      assert s[i] == s[i..i + |w|][0] == w[0];
      assert forall j | 0 <= j < k :: s[j] == s[..k][j] != w[0];
      assert s[k..][i - k..i - k + |w|] == s[i..i + |w|];
      assert OccursAt(s[k..], w, i - k);
    }
    if Contains(s[k..], w) {
      var i :| 0 <= i <= |s[k..]| - |w| && OccursAt(s[k..], w, i);
      assert s[i + k..i + k + |w|] == s[k..][i..i + |w|];
      assert OccursAt(s, w, i + k);
    }
  }

  /** When `w` does not start `s`, an occurrence must start later. */
  lemma {:induction false} SkipFirst(s: string, w: string)
    requires 0 < |s| && !OccursAt(s, w, 0)
    ensures Contains(s, w) <==> Contains(s[1..], w)
  {
    if Contains(s, w) {
      var i :| 0 <= i <= |s| - |w| && OccursAt(s, w, i);
      assert s[1..][i - 1..i - 1 + |w|] == s[i..i + |w|];
      assert OccursAt(s[1..], w, i - 1);
    }
    if Contains(s[1..], w) {
      var i :| 0 <= i <= |s[1..]| - |w| && OccursAt(s[1..], w, i);
      assert s[i + 1..i + 1 + |w|] == s[1..][i..i + |w|];
      assert OccursAt(s, w, i + 1);
    }
  }

  /** A concatenation starts with its first part and ends with its last. */
  lemma {:induction false} ConcatAffixes(a: string, x: string, y: string, z: string, b: string)
    ensures StartsWith(a + x + y + z + b, a) && EndsWith(a + x + y + z + b, b)
  {
    var r := a + x + y + z + b;
    assert r[..|a|] == a;
    assert r[|r| - |b|..] == b;
  }

  /** The leftmost occurrence of `w` in `s` at or after `from`. */
  function IndexOf(s: string, w: string, from: nat): (r: Option<nat>)
    requires from <= |s|
    ensures r.Some? ==> from <= r.value && OccursAt(s, w, r.value)
                        && forall j | from <= j < r.value :: !OccursAt(s, w, j)
    ensures r.None? ==> forall j | from <= j :: !OccursAt(s, w, j)
    decreases |s| - from
  {
    if OccursAt(s, w, from) then Some(from)
    else if from == |s| then None
    else IndexOf(s, w, from + 1)
  }

  /** `s.replace(pattern, replacement)` with a string pattern: only the
      leftmost occurrence is replaced. */
  function ReplaceFirst(s: string, pattern: string, replacement: string): string {
    match IndexOf(s, pattern, 0)
    case None => s
    case Some(i) => s[..i] + replacement + s[i + |pattern|..]
  }

  /** Replacing a prefix by the empty string drops it. */
  lemma {:induction false} ReplacePrefix(s: string, prefix: string)
    requires StartsWith(s, prefix)
    ensures ReplaceFirst(s, prefix, "") == s[|prefix|..]
  {
    assert OccursAt(s, prefix, 0);
  }
}
