/** The `String.prototype` predicates the engine client relies on:
    `startsWith`, `endsWith` and `includes`, over strings as `seq<char>`. */
module Strings {

  /** `s.startsWith(prefix)` */
  predicate StartsWith(s: string, prefix: string) {
    |prefix| <= |s| && s[..|prefix|] == prefix
  }

  /** `s.endsWith(suffix)` */
  predicate EndsWith(s: string, suffix: string) {
    |suffix| <= |s| && s[|s| - |suffix|..] == suffix
  }

  /** `s.includes(needle)`: the needle occurs at some position of `s`. */
  predicate Contains(s: string, needle: string)
    decreases |s|
  {
    StartsWith(s, needle) || (|s| > 0 && Contains(s[1..], needle))
  }

  /** A string always ends with what was just appended to it. */
  lemma EndsWithAppended(s: string, suffix: string)
    ensures EndsWith(s + suffix, suffix)
  {
    assert (s + suffix)[|s|..] == suffix;
  }

  /** A needle with a character the haystack lacks never occurs in it; this is
      how the model shows that a fixed message matches none of the needles. */
  lemma {:induction false} MissingCharNotContained(s: string, needle: string, c: char)
    requires c in needle
    requires c !in s
    ensures !Contains(s, needle)
    decreases |s|
  {
    if |s| > 0 {
      assert forall x :: x in s[1..] ==> x in s;
      MissingCharNotContained(s[1..], needle, c);
    }
  }
}
