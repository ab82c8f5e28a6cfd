/** String primitives of JavaScript used by the core: `startsWith`, `indexOf`
    and `substring`. Strings are sequences of UTF-16 code units, modelled as
    `seq<char>`. */
module Text {

  /** `s.startsWith(prefix)`. */
  predicate StartsWith(s: string, prefix: string) {
    |prefix| <= |s| && s[..|prefix|] == prefix
  }

  /** `word` occurs in `s` starting at position `p`. */
  predicate OccursAt(s: string, word: string, p: int) {
    0 <= p && p + |word| <= |s| && s[p..p + |word|] == word
  }

  /** `s.indexOf(word)`: the first position at which `word` occurs in `s`,
      or -1 when it occurs nowhere (`IndexOfFirst` states "first"). */
  function IndexOf(s: string, word: string): (r: int)
    ensures r == -1 || (0 <= r && r + |word| <= |s|)
  {
    IndexOfFrom(s, word, 0)
  }

  /** The first occurrence of `word` in `s` at or after `from`, or -1. */
  function IndexOfFrom(s: string, word: string, from: nat): (r: int)
    ensures r == -1 || (from <= r && r + |word| <= |s|)
    decreases |s| - from
  {
    if from + |word| > |s| then -1
    else if s[from..from + |word|] == word then from
    else IndexOfFrom(s, word, from + 1)
  }

  /** No occurrence at or after `from` comes before the one found. */
  lemma {:induction false} IndexOfFromFirst(s: string, word: string, from: nat, p: int)
    requires from <= p
    requires IndexOfFrom(s, word, from) == -1 || p < IndexOfFrom(s, word, from)
    ensures !OccursAt(s, word, p)
    decreases |s| - from
  {
    if from + |word| <= |s| && s[from..from + |word|] != word && from < p {
      IndexOfFromFirst(s, word, from + 1, p);
    }
  }

  /** What `IndexOfFrom` finds is an occurrence. */
  lemma {:induction false} IndexOfFromFound(s: string, word: string, from: nat)
    ensures IndexOfFrom(s, word, from) == -1 || OccursAt(s, word, IndexOfFrom(s, word, from))
    decreases |s| - from
  {
    if from + |word| <= |s| && s[from..from + |word|] != word {
      IndexOfFromFound(s, word, from + 1);
    }
  }

  /** What `IndexOf` finds is an occurrence. */
  lemma IndexOfFound(s: string, word: string)
    ensures IndexOf(s, word) == -1 || OccursAt(s, word, IndexOf(s, word))
  {
    IndexOfFromFound(s, word, 0);
  }

  /** `word` occurs nowhere before `IndexOf(s, word)`, and nowhere at all when
      that is -1. */
  lemma IndexOfFirst(s: string, word: string, p: int)
    requires 0 <= p
    requires IndexOf(s, word) == -1 || p < IndexOf(s, word)
    ensures !OccursAt(s, word, p)
  {
    IndexOfFromFirst(s, word, 0, p);
  }

  /** Concrete checks of `IndexOf` against `indexOf`'s documented results. */
  lemma IndexOfExamples()
    ensures IndexOf("a[OK]b", "[OK]") == 1
    ensures IndexOf("abc", "") == 0
    ensures IndexOf("abc", "abcd") == -1
  {
    assert OccursAt("a[OK]b", "[OK]", 1);
    assert !OccursAt("a[OK]b", "[OK]", 0) by { assert "a[OK]b"[0] != "[OK]"[0]; }
    assert IndexOfFrom("a[OK]b", "[OK]", 0) == IndexOfFrom("a[OK]b", "[OK]", 1);
    assert OccursAt("abc", "", 0);
  }
}
