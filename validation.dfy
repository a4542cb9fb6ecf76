/**
 * The handler's input check on the `text` parameter: at most five runes,
 * and a full match of the pattern `^[\p{Han}]+$`.
 *
 * Go's Unicode Han table is not part of this model; every definition here
 * takes the membership test for the Han script as the parameter `isHan`.
 */
module Validation {

  /** The most runes a text may have. */
  const MaxTextRunes: nat := 5

  /**
   * The regular expression `^[\p{Han}]+$` on `s`: one rune of the class,
   * followed by the end of the text or by another full match.
   */
  predicate MatchesOneOrMore(s: string, isHan: char -> bool) {
    |s| >= 1 && isHan(s[0]) && (|s| == 1 || MatchesOneOrMore(s[1..], isHan))
  }

  /** The pattern matches exactly the non-empty texts made only of Han runes. */
  lemma {:induction false} MatchesOneOrMoreIff(s: string, isHan: char -> bool)
    ensures MatchesOneOrMore(s, isHan) <==> |s| >= 1 && forall i :: 0 <= i < |s| ==> isHan(s[i])
  {
    if |s| > 1 {
      MatchesOneOrMoreIff(s[1..], isHan);
      assert forall i :: 1 <= i < |s| ==> s[i] == s[1..][i - 1];
    }
  }

  /**
   * `isValidText`: the rune count is checked first, then the pattern.
   * A text passes exactly when it has one to five runes, all of them Han.
   */
  function IsValidText(text: string, isHan: char -> bool): (ok: bool)
    ensures ok <==> 1 <= |text| <= MaxTextRunes && forall i :: 0 <= i < |text| ==> isHan(text[i])
    ensures |text| > MaxTextRunes ==> !ok
    ensures text == [] ==> !ok
  {
    MatchesOneOrMoreIff(text, isHan);
    if |text| > MaxTextRunes then false else MatchesOneOrMore(text, isHan)
  }
}
