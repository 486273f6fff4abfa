/**
 * The reply test of `isFacebookBound`: does the content match the pattern
 * `@[a-zA-Z0-9_]{1,15}\b` anywhere? The run `[a-zA-Z0-9_]` is ASCII, but the `u` flag
 * also turns on Unicode properties, so `\b` counts every Unicode letter and digit as a
 * word character. Which non-ASCII characters those are is PCRE's Unicode table,
 * passed in as `unicodeWord`.
 */
module Mention {

  /** The class `[a-zA-Z0-9_]`, which is also `\w` on ASCII characters. */
  predicate IsWordChar(c: char) {
    ('a' <= c <= 'z') || ('A' <= c <= 'Z') || ('0' <= c <= '9') || c == '_'
  }

  /** `\w` under Unicode properties: the ASCII class, or a non-ASCII letter or digit. */
  predicate IsUcpWordChar(c: char, unicodeWord: char -> bool) {
    if (c as int) < 128 then IsWordChar(c) else unicodeWord(c)
  }

  /** `\b` at position p: a word character on exactly one side of p. */
  predicate WordBoundary(s: string, p: nat, unicodeWord: char -> bool)
    requires p <= |s|
  {
    (0 < p && IsUcpWordChar(s[p - 1], unicodeWord)) != (p < |s| && IsUcpWordChar(s[p], unicodeWord))
  }

  /** The pattern matches at i, consuming `@` and then k characters of `[a-zA-Z0-9_]`. */
  ghost predicate MatchesAt(s: string, i: nat, k: nat, unicodeWord: char -> bool) {
    && i + 1 + k <= |s|
    && s[i] == '@'
    && 1 <= k <= 15
    && (forall j :: i + 1 <= j < i + 1 + k ==> IsWordChar(s[j]))
    && WordBoundary(s, i + 1 + k, unicodeWord)
  }

  /** `preg_match` succeeds: the pattern matches at some position. */
  ghost predicate HasMention(s: string, unicodeWord: char -> bool) {
    exists i: nat, k: nat :: MatchesAt(s, i, k, unicodeWord)
  }

  /** Length of the maximal run of `[a-zA-Z0-9_]` starting at p. */
  function WordRun(s: string, p: nat): (n: nat)
    requires p <= |s|
    ensures p + n <= |s|
    ensures forall j :: p <= j < p + n ==> IsWordChar(s[j])
    ensures p + n == |s| || !IsWordChar(s[p + n])
    decreases |s| - p
  {
    if p < |s| && IsWordChar(s[p]) then 1 + WordRun(s, p + 1) else 0
  }

  /** A match consumes exactly the maximal ASCII run after the `@`: `\b` allows no shorter one. */
  lemma MatchIsMaximalRun(s: string, i: nat, k: nat, unicodeWord: char -> bool)
    requires MatchesAt(s, i, k, unicodeWord)
    ensures k == WordRun(s, i + 1)
  {
  }

  /** The character after the run ends the word: the end of the content, or no `\w` character. */
  predicate EndsWord(s: string, p: nat, unicodeWord: char -> bool)
    requires p <= |s|
  {
    p == |s| || !IsUcpWordChar(s[p], unicodeWord)
  }

  /** The search from position i: some match starts at or after i. */
  function MentionFrom(s: string, i: nat, unicodeWord: char -> bool): bool
    requires i <= |s|
    decreases |s| - i
  {
    if i == |s| then false
    else
      (s[i] == '@' && 1 <= WordRun(s, i + 1) <= 15 && EndsWord(s, i + 1 + WordRun(s, i + 1), unicodeWord))
      || MentionFrom(s, i + 1, unicodeWord)
  }

  lemma {:induction false} MentionFromCorrect(s: string, i: nat, unicodeWord: char -> bool)
    requires i <= |s|
    ensures MentionFrom(s, i, unicodeWord) <==> exists j: nat, k: nat :: i <= j && MatchesAt(s, j, k, unicodeWord)
    decreases |s| - i
  {
    if i < |s| {
      MentionFromCorrect(s, i + 1, unicodeWord);
      if s[i] == '@' && 1 <= WordRun(s, i + 1) <= 15 && EndsWord(s, i + 1 + WordRun(s, i + 1), unicodeWord) {
        var n := WordRun(s, i + 1);
        assert IsWordChar(s[i + n]);
        assert MatchesAt(s, i, n, unicodeWord);
      }
      forall j: nat, k: nat | i <= j && MatchesAt(s, j, k, unicodeWord)
        ensures MentionFrom(s, i, unicodeWord)
      {
        if j == i {
          MatchIsMaximalRun(s, i, k, unicodeWord);
          assert IsUcpWordChar(s[i + k], unicodeWord);
        }
      }
    }
  }

  /** The executable reply test, equal to the regular expression's verdict. */
  function ContainsMention(s: string, unicodeWord: char -> bool): (r: bool)
    ensures r <==> HasMention(s, unicodeWord)
  {
    MentionFromCorrect(s, 0, unicodeWord);
    MentionFrom(s, 0, unicodeWord)
  }

  /** With no `@` at or after i, the search from i finds nothing. */
  lemma {:induction false} NoAtNoMention(s: string, i: nat, unicodeWord: char -> bool)
    requires i <= |s|
    requires forall j :: i <= j < |s| ==> s[j] != '@'
    ensures !MentionFrom(s, i, unicodeWord)
    decreases |s| - i
  {
    if i < |s| {
      NoAtNoMention(s, i + 1, unicodeWord);
    }
  }

  /**
   * An `@` whose maximal ASCII run is followed by a non-ASCII letter or digit starts no
   * match: `\b` cannot hold after the run, and no shorter run ends a word either.
   */
  lemma NonAsciiLetterBlocksMention(s: string, i: nat, unicodeWord: char -> bool)
    requires i < |s| && s[i] == '@'
    requires i + 1 + WordRun(s, i + 1) < |s|
    requires (s[i + 1 + WordRun(s, i + 1)] as int) >= 128 && unicodeWord(s[i + 1 + WordRun(s, i + 1)])
    ensures forall k: nat :: !MatchesAt(s, i, k, unicodeWord)
  {
    forall k: nat | MatchesAt(s, i, k, unicodeWord)
      ensures false
    {
      MatchIsMaximalRun(s, i, k, unicodeWord);
    }
  }

  /** `"@josé"` is not a reply when `é` is a Unicode letter. */
  lemma JoseIsNoMention(unicodeWord: char -> bool)
    requires unicodeWord('é')
    ensures !HasMention("@josé", unicodeWord)
  {
    var s := "@josé";
    assert WordRun(s, 1) == 3 by {
      assert WordRun(s, 4) == 0;
    }
    NonAsciiLetterBlocksMention(s, 0, unicodeWord);
    NoAtNoMention(s, 1, unicodeWord);
    MentionFromCorrect(s, 1, unicodeWord);
  }
}
