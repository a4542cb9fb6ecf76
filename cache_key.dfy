/**
 * How a request names its cache file: the key `model + "_" + text` is
 * sanitized, given the ".mp3" extension and joined onto the output
 * directory.
 */
module CacheKey {
  import opened Text
  import opened Paths

  /** The most runes a sanitized file name keeps. */
  const MaxFilenameRunes: nat := 50

  const Extension: string := ".mp3"

  /** The two separators the key may not carry into a file name. */
  predicate IsSeparator(c: char) {
    c == '/' || c == '\\'
  }

  /** Both separator replacements of `sanitizeFilename`, in their order. */
  function ReplaceSeparators(s: string): string {
    ReplaceAll(ReplaceAll(s, '/', '_'), '\\', '_')
  }

  /** Separators become '_', and every other rune stays where it was. */
  lemma ReplaceSeparatorsAt(s: string)
    ensures |ReplaceSeparators(s)| == |s|
    ensures forall i :: 0 <= i < |s| ==>
      ReplaceSeparators(s)[i] == (if IsSeparator(s[i]) then '_' else s[i])
  {
    ReplaceAllAt(s, '/', '_');
    ReplaceAllAt(ReplaceAll(s, '/', '_'), '\\', '_');
  }

  /**
   * `sanitizeFilename`: separators become '_', surrounding white space is
   * trimmed, and the result is cut to its first 50 runes.
   */
  function SanitizeFilename(s: string): string {
    Truncate(TrimSpace(ReplaceSeparators(s)), MaxFilenameRunes)
  }

  /**
   * The sanitized name is the input's run starting at `lead`, after
   * nothing but white space, with each separator turned into '_'; it holds
   * no separator, has at most 50 runes, is a prefix of the trimmed and
   * separator-replaced input, exactly 50 runes long when that is longer
   * and all of it otherwise, and does not begin with white space.
   */
  lemma SanitizeFilenameSafe(s: string) returns (lead: nat)
    ensures var r := SanitizeFilename(s);
      forall i :: 0 <= i < |r| ==> !IsSeparator(r[i])
    ensures |SanitizeFilename(s)| <= MaxFilenameRunes
    ensures var r, t := SanitizeFilename(s), TrimSpace(ReplaceSeparators(s));
      |r| <= |t| && r == t[..|r|] && (|t| <= MaxFilenameRunes ==> r == t)
    ensures var r, t := SanitizeFilename(s), TrimSpace(ReplaceSeparators(s));
      |r| == if |t| <= MaxFilenameRunes then |t| else MaxFilenameRunes
    ensures var r := SanitizeFilename(s);
      r != [] ==> !IsSpace(r[0])
    ensures lead + |SanitizeFilename(s)| <= |s|
    ensures forall i :: 0 <= i < lead ==> IsSpace(s[i])
    ensures var r := SanitizeFilename(s);
      forall i :: 0 <= i < |r| ==> r[i] == (if IsSeparator(s[lead + i]) then '_' else s[lead + i])
  {
    var replaced := ReplaceSeparators(s);
    ReplaceSeparatorsAt(s);
    var trimmed := TrimSpace(replaced);
    lead := TrimSpaceStrips(replaced);
    var r := SanitizeFilename(s);
    assert |r| <= |trimmed| && r == trimmed[..|r|];
    forall i | 0 <= i < |r|
      ensures r[i] == replaced[lead + i]
    {
      assert r[i] == trimmed[i];
      assert trimmed[i] == replaced[lead + i];
    }
    forall i | 0 <= i < lead
      ensures IsSpace(s[i])
    {
      assert IsSpace(replaced[i]);
    }
  }

  /** The name the cache file gets: the sanitized `model_text` key with ".mp3" appended. */
  function CacheFileName(model: string, text: string): string {
    SanitizeFilename(model + "_" + text) + Extension
  }

  /**
   * The file name is the sanitized key followed by ".mp3", at most 54
   * runes, and a single plain path component: never empty, `.` or `..`,
   * and free of separators.
   */
  lemma CacheFileNameIsComponent(model: string, text: string)
    ensures var name := CacheFileName(model, text);
      && |name| >= |Extension|
      && name[|name| - |Extension|..] == Extension
      && name[..|name| - |Extension|] == SanitizeFilename(model + "_" + text)
      && |name| <= MaxFilenameRunes + |Extension|
      && IsPlainComponent(name)
  {
    var key := SanitizeFilename(model + "_" + text);
    var _ := SanitizeFilenameSafe(model + "_" + text);
    var name := key + Extension;
    assert name[|key|..] == Extension;
    assert name[..|key|] == key;
    assert name[|name| - 1] == '3';
    assert forall i :: 0 <= i < |name| ==> name[i] != Separator by {
      forall i | 0 <= i < |name|
        ensures name[i] != Separator
      {
        if i < |key| {
          assert name[i] == key[i];
        } else {
          assert name[i] == Extension[i - |key|];
        }
      }
    }
  }

  /**
   * Where the cache file lives: the file name joined onto the output
   * directory.
   */
  function CachePath(outputDir: string, model: string, text: string): string {
    Join(outputDir, CacheFileName(model, text))
  }

  /**
   * The cache path is always a direct child of the cleaned output
   * directory, so no text or model reaches a file outside it.
   */
  lemma CachePathIsChild(outputDir: string, model: string, text: string)
    ensures CachePath(outputDir, model, text) == Child(Clean(outputDir), CacheFileName(model, text))
  {
    CacheFileNameIsComponent(model, text);
    JoinIsChild(outputDir, CacheFileName(model, text));
  }
}
