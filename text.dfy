/**
 * The pieces of Go's `strings` and `unicode` packages that the file-name
 * derivation relies on, over strings seen as sequences of runes.
 */
module Text {

  /**
   * Go's `unicode.IsSpace`: the Unicode White_Space property, that is
   * '\t', '\n', '\v', '\f', '\r', ' ', U+0085, U+00A0 and, above Latin-1,
   * U+1680, U+2000..U+200A, U+2028, U+2029, U+202F, U+205F and U+3000.
   */
  predicate IsSpace(c: char) {
    || ('\t' <= c <= '\r')
    || c == ' '
    || c == '\U{0085}'
    || c == '\U{00A0}'
    || c == '\U{1680}'
    || ('\U{2000}' <= c <= '\U{200A}')
    || c == '\U{2028}'
    || c == '\U{2029}'
    || c == '\U{202F}'
    || c == '\U{205F}'
    || c == '\U{3000}'
  }

  /**
   * `strings.ReplaceAll(s, target, repl)` for one-rune `target` and `repl`.
   */
  function ReplaceAll(s: string, target: char, repl: char): string {
    if s == [] then []
    else [if s[0] == target then repl else s[0]] + ReplaceAll(s[1..], target, repl)
  }

  /** Every occurrence of `target` becomes `repl`, every other rune stays put. */
  lemma {:induction false} ReplaceAllAt(s: string, target: char, repl: char)
    ensures |ReplaceAll(s, target, repl)| == |s|
    ensures forall i :: 0 <= i < |s| ==>
      ReplaceAll(s, target, repl)[i] == (if s[i] == target then repl else s[i])
  {
    if s != [] {
      ReplaceAllAt(s[1..], target, repl);
    }
  }

  /** `strings.TrimLeftFunc(s, unicode.IsSpace)`. */
  function TrimLeftSpace(s: string): string {
    if s != [] && IsSpace(s[0]) then TrimLeftSpace(s[1..]) else s
  }

  /**
   * Left trimming drops the longest all-space prefix: what is left is a
   * suffix of `s` that does not begin with a space.
   */
  lemma {:induction false} TrimLeftSpaceDrops(s: string)
    ensures var r := TrimLeftSpace(s);
      && |r| <= |s|
      && r == s[|s| - |r|..]
      && (forall i :: 0 <= i < |s| - |r| ==> IsSpace(s[i]))
      && (r != [] ==> !IsSpace(r[0]))
  {
    if s != [] && IsSpace(s[0]) {
      var t := s[1..];
      TrimLeftSpaceDrops(t);
      var r := TrimLeftSpace(t);
      assert TrimLeftSpace(s) == r;
      assert t[|t| - |r|..] == s[|s| - |r|..];
      forall i | 0 <= i < |s| - |r|
        ensures IsSpace(s[i])
      {
        if i > 0 {
          assert s[i] == t[i - 1];
        }
      }
    }
  }

  /** `strings.TrimRightFunc(s, unicode.IsSpace)`. */
  function TrimRightSpace(s: string): string {
    if s != [] && IsSpace(s[|s| - 1]) then TrimRightSpace(s[..|s| - 1]) else s
  }

  /**
   * Right trimming drops the longest all-space suffix: what is left is a
   * prefix of `s` that does not end with a space.
   */
  lemma {:induction false} TrimRightSpaceDrops(s: string)
    ensures var r := TrimRightSpace(s);
      && |r| <= |s|
      && r == s[..|r|]
      && (forall i :: |r| <= i < |s| ==> IsSpace(s[i]))
      && (r != [] ==> !IsSpace(r[|r| - 1]))
  {
    if s != [] && IsSpace(s[|s| - 1]) {
      var t := s[..|s| - 1];
      TrimRightSpaceDrops(t);
      var r := TrimRightSpace(t);
      assert TrimRightSpace(s) == r;
      assert t[..|r|] == s[..|r|];
      forall i | |r| <= i < |s|
        ensures IsSpace(s[i])
      {
        if i < |s| - 1 {
          assert s[i] == t[i];
        }
      }
    }
  }

  /**
   * `s` is `r` surrounded by white space only: `r` starts at index `lead`
   * of `s`, and every rune of `s` before or after it is a space.
   */
  predicate PaddedWithSpace(s: string, lead: int, r: string) {
    && 0 <= lead <= |s| - |r|
    && s[lead..lead + |r|] == r
    && (forall i :: 0 <= i < lead ==> IsSpace(s[i]))
    && (forall i :: lead + |r| <= i < |s| ==> IsSpace(s[i]))
  }

  /** `strings.TrimSpace`: leading, then trailing white space removed. */
  function TrimSpace(s: string): string {
    TrimRightSpace(TrimLeftSpace(s))
  }

  /**
   * What `TrimSpace` leaves is the contiguous piece of `s` between its
   * leading and trailing white space; it neither begins nor ends with a
   * space, and everything removed was a space.
   */
  lemma TrimSpaceStrips(s: string) returns (lead: nat)
    ensures PaddedWithSpace(s, lead, TrimSpace(s))
    ensures var r := TrimSpace(s);
      r != [] ==> !IsSpace(r[0]) && !IsSpace(r[|r| - 1])
  {
    var left := TrimLeftSpace(s);
    TrimLeftSpaceDrops(s);
    TrimRightSpaceDrops(left);
    var r := TrimRightSpace(left);
    lead := |s| - |left|;
    assert s[lead..lead + |r|] == r;
  }

  /** A rune-wise prefix of at most `n` runes: `string([]rune(s)[:n])` when longer. */
  function Truncate(s: string, n: nat): string {
    if |s| > n then s[..n] else s
  }
}
