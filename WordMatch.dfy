/**
 * Whole-word, case-insensitive search: the meaning of searching a text with
 * the regular expression `\b(word)\b` under the ignore-case flag, for a word
 * that holds no regular-expression metacharacters, over ASCII text.
 */
module WordMatch {

  /** Characters of the regex class `\w` on ASCII text. */
  predicate IsWordChar(c: char) {
    ('a' <= c <= 'z') || ('A' <= c <= 'Z') || ('0' <= c <= '9') || c == '_'
  }

  /** ASCII lower-casing; every other character is left as it is. */
  function ToLower(c: char): (d: char)
    ensures 'A' <= c <= 'Z' ==> 'a' <= d <= 'z' && d as int - c as int == 32
    ensures !('A' <= c <= 'Z') ==> d == c
  {
    if 'A' <= c <= 'Z' then (c as int + 32) as char else c
  }

  /** Position `i` of `text` holds a word character (false outside the text). */
  predicate WordCharAt(text: string, i: int) {
    0 <= i < |text| && IsWordChar(text[i])
  }

  /** `\b` holds at position `i`: a word character on exactly one side of it. */
  predicate BoundaryAt(text: string, i: int) {
    WordCharAt(text, i - 1) != WordCharAt(text, i)
  }

  /** `a` and `b` are equal once both are lower-cased. */
  predicate SameIgnoringCase(a: string, b: string) {
    |a| == |b| && forall i :: 0 <= i < |a| ==> ToLower(a[i]) == ToLower(b[i])
  }

  /** `word` occurs in `text` at position `p`, with a word boundary on either side. */
  predicate WordAt(text: string, word: string, p: int) {
    0 <= p && p + |word| <= |text| &&
    BoundaryAt(text, p) &&
    SameIgnoringCase(text[p..p + |word|], word) &&
    BoundaryAt(text, p + |word|)
  }

  /** Scans the positions from `from` on for a whole-word occurrence of `word`. */
  function ContainsWordFrom(text: string, word: string, from: nat): (found: bool)
    ensures found <==> exists p :: from <= p && WordAt(text, word, p)
    decreases |text| - from
  {
    if from + |word| > |text| then false
    else WordAt(text, word, from) || ContainsWordFrom(text, word, from + 1)
  }

  /** The regex search succeeds: `word` occurs somewhere in `text` as a whole word. */
  function ContainsWord(text: string, word: string): (found: bool)
    ensures found <==> exists p :: WordAt(text, word, p)
  {
    ContainsWordFrom(text, word, 0)
  }

  /** The case of the word does not matter. */
  lemma {:induction false} WordAtIgnoresCase(text: string, word: string, word': string, p: int)
    requires SameIgnoringCase(word, word')
    ensures WordAt(text, word, p) <==> WordAt(text, word', p)
  {
  }

  /** Nor does the case of the text. */
  lemma TextCaseIgnored(text: string, text': string, word: string, p: int)
    requires SameIgnoringCase(text, text')
    ensures WordAt(text, word, p) <==> WordAt(text', word, p)
  {
  }

  /** A match inside a longer word is not a match: a word character right after the occurrence rules it out. */
  lemma NoMatchBeforeWordChar(text: string, word: string, p: int)
    requires word != [] && IsWordChar(word[|word| - 1])
    requires 0 <= p && p + |word| < |text| && IsWordChar(text[p + |word|])
    ensures !WordAt(text, word, p)
  {
  }

  /** The mirror case: a word character right before the occurrence rules it out too. */
  lemma NoMatchAfterWordChar(text: string, word: string, p: int)
    requires word != [] && IsWordChar(word[0])
    requires 0 < p && p + |word| <= |text| && IsWordChar(text[p - 1])
    ensures !WordAt(text, word, p)
  {
  }
}
