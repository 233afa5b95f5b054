/**
 * The three shapes of regular expression the classifier uses, given by what they match rather than
 * by a regular-expression engine: `re.search` finds a match somewhere in the text.
 *   - `AnyOf(alts)`  is `alt1|alt2|...`: one of the literals occurs anywhere;
 *   - `WordOf(alts)` is `\b(alt1|alt2|...)\b`: one of the literals occurs with a word boundary on both sides;
 *   - `BangRun`      is `!\s*!+`: two exclamation marks separated by nothing but white space.
 * A character class such as `env[íi]o` is written out as its literals ("envío", "envio").
 */
module Patterns {
  import opened Text

  datatype Pattern =
    | AnyOf(alternatives: seq<string>)
    | WordOf(alternatives: seq<string>)
    | BangRun

  /** The literal `w` occurs in `s` starting at index `i`. */
  predicate OccursAt(s: string, i: int, w: string)
  {
    0 <= i && i + |w| <= |s| && s[i..i + |w|] == w
  }

  /** `\b` at position `i` (between `s[i-1]` and `s[i]`): exactly one side is a word character;
      outside the text counts as a non-word character. */
  predicate WordBoundary(s: string, i: int)
  {
    (0 < i <= |s| && IsWordChar(s[i - 1])) != (0 <= i < |s| && IsWordChar(s[i]))
  }

  /** `w` occurs at `i` as a whole word: `\b` before and after it. */
  predicate WordAt(s: string, i: int, w: string)
  {
    OccursAt(s, i, w) && WordBoundary(s, i) && WordBoundary(s, i + |w|)
  }

  /** A match of `!\s*!+` starts at `i`, its second `!` being at `j`. */
  predicate BangPair(s: string, i: int, j: int)
  {
    0 <= i < j < |s| && s[i] == '!' && s[j] == '!' && forall k :: i < k < j ==> IsSpace(s[k])
  }

  /** `re.search(p, s) is not None`. */
  predicate Search(p: Pattern, s: string)
  {
    match p
    case AnyOf(alts) => exists k, i :: 0 <= k < |alts| && 0 <= i <= |s| && OccursAt(s, i, alts[k])
    case WordOf(alts) => exists k, i :: 0 <= k < |alts| && 0 <= i <= |s| && WordAt(s, i, alts[k])
    case BangRun => exists i, j :: 0 <= i < j < |s| && BangPair(s, i, j)
  }

  /** No pattern whose literals are all non-empty matches the empty text. */
  lemma NothingMatchesEmpty(p: Pattern)
    requires p.AnyOf? || p.WordOf? ==> forall k :: 0 <= k < |p.alternatives| ==> p.alternatives[k] != []
    ensures !Search(p, "")
  {
  }

  /** A text shorter than every literal of a pattern does not match it. */
  lemma TooShortToMatch(p: Pattern, s: string)
    requires p.AnyOf? || p.WordOf?
    requires forall k :: 0 <= k < |p.alternatives| ==> |p.alternatives[k]| > |s|
    ensures !Search(p, s)
  {
  }

  /** A text without "!" does not match `!\s*!+`. */
  lemma NoBangNoRun(s: string)
    requires forall i :: 0 <= i < |s| ==> s[i] != '!'
    ensures !Search(BangRun, s)
  {
  }

  /** Adjacent exclamation marks ("!!") and marks separated by blanks ("! !") both match `!\s*!+`. */
  lemma BangRunMatches(s: string, i: nat, j: nat)
    requires i < j < |s| && s[i] == '!' && s[j] == '!'
    requires forall k :: i < k < j ==> s[k] == ' '
    ensures Search(BangRun, s)
  {
    assert BangPair(s, i, j);
  }
}
