/**
 * The parts of Apache Commons Lang `StringUtils` and of `java.lang.String`
 * that the class-name utilities call, on non-null strings, with their
 * documented semantics.
 */
module StringUtils {

  /** `sub` occurs in `s` starting at index `i`. */
  predicate OccursAt(s: string, sub: string, i: int) {
    0 <= i && i + |sub| <= |s| && s[i..i + |sub|] == sub
  }

  /** A one-character pattern occurs exactly where that character stands. */
  lemma OccursAtChar(s: string, c: char, i: int)
    ensures OccursAt(s, [c], i) <==> 0 <= i < |s| && s[i] == c
  {
    if 0 <= i < |s| {
      assert s[i..i + 1] == [s[i]];
    }
  }

  /** `String.startsWith` (and `StringUtils.startsWith` on non-null arguments). */
  predicate StartsWith(s: string, prefix: string) {
    |prefix| <= |s| && s[..|prefix|] == prefix
  }

  /** `String.endsWith`. */
  predicate EndsWith(s: string, suffix: string) {
    |suffix| <= |s| && s[|s| - |suffix|..] == suffix
  }

  /** `String.indexOf(sub, from)`: the first occurrence at or after `from`, or -1. */
  function IndexOfFrom(s: string, sub: string, from: nat): (r: int)
    ensures r == -1 || (from <= r && OccursAt(s, sub, r))
    ensures forall j :: from <= j && (r == -1 || j < r) ==> !OccursAt(s, sub, j)
    decreases |s| - from
  {
    if from + |sub| > |s| then -1
    else if s[from..from + |sub|] == sub then from
    else IndexOfFrom(s, sub, from + 1)
  }

  /** `String.indexOf(sub)`. */
  function IndexOf(s: string, sub: string): (r: int)
    ensures r == -1 || OccursAt(s, sub, r)
    ensures forall j :: 0 <= j && (r == -1 || j < r) ==> !OccursAt(s, sub, j)
  {
    IndexOfFrom(s, sub, 0)
  }

  /** The last occurrence of `sub` that starts at or before `k`, or -1. */
  function LastIndexOfUpTo(s: string, sub: string, k: int): (r: int)
    ensures r == -1 || (r <= k && OccursAt(s, sub, r))
    ensures forall j :: r < j <= k ==> !OccursAt(s, sub, j)
    decreases k + 1
  {
    if k < 0 then -1
    else if OccursAt(s, sub, k) then k
    else LastIndexOfUpTo(s, sub, k - 1)
  }

  /** `String.lastIndexOf(sub)`. */
  function LastIndexOf(s: string, sub: string): (r: int)
    ensures r == -1 || OccursAt(s, sub, r)
    ensures forall j :: r < j ==> !OccursAt(s, sub, j)
  {
    LastIndexOfUpTo(s, sub, |s| - |sub|)
  }

  /**
   * `StringUtils.replace(text, searchString, replacement)`: every
   * non-overlapping occurrence, scanning left to right; an empty text or an
   * empty search string leaves the text as it is.
   */
  function Replace(text: string, search: string, replacement: string): (r: string)
    ensures |search| == 0 || IndexOf(text, search) == -1 ==> r == text
    ensures |search| != 0 && IndexOf(text, search) != -1 ==>
      StartsWith(r, text[..IndexOf(text, search)] + replacement)
    decreases |text|
  {
    if |text| == 0 || |search| == 0 then text
    else
      var i := IndexOf(text, search);
      if i == -1 then text
      else
        var head := text[..i] + replacement;
        var r := head + Replace(text[i + |search|..], search, replacement);
        assert r[..|head|] == head;
        r
  }

  /** Replacing one character by one character maps the string character by character. */
  lemma {:induction false} ReplaceChar(text: string, c: char, d: char)
    ensures |Replace(text, [c], [d])| == |text|
    ensures forall k :: 0 <= k < |text| ==>
      Replace(text, [c], [d])[k] == if text[k] == c then d else text[k]
  {
    if |text| != 0 {
      var i := IndexOf(text, [c]);
      if i == -1 {
        forall k | 0 <= k < |text| ensures text[k] != c {
          OccursAtChar(text, c, k);
        }
      } else {
        var rest := text[i + 1..];
        ReplaceChar(rest, c, d);
        var r := Replace(text, [c], [d]);
        assert r == text[..i] + [d] + Replace(rest, [c], [d]);
        OccursAtChar(text, c, i);
        forall k | 0 <= k < |text|
          ensures r[k] == if text[k] == c then d else text[k]
        {
          if k < i {
            OccursAtChar(text, c, k);
          } else if k > i {
            assert r[k] == Replace(rest, [c], [d])[k - i - 1];
            assert rest[k - i - 1] == text[k];
          }
        }
      }
    }
  }

  /**
   * `StringUtils.substringBefore(str, separator)`: the text before the first
   * occurrence of the separator; the whole string when it does not occur, and
   * the empty string for an empty separator.
   */
  function SubstringBefore(str: string, separator: string): (r: string)
    ensures StartsWith(str, r)
    ensures |str| != 0 && |separator| != 0 ==>
      && (r == str <==> IndexOf(str, separator) == -1)
      && (r != str ==> OccursAt(str, separator, |r|))
      && forall j :: 0 <= j < |r| ==> !OccursAt(str, separator, j)
  {
    if |str| == 0 then str
    else if |separator| == 0 then ""
    else
      var pos := IndexOf(str, separator);
      if pos == -1 then str else str[..pos]
  }

  /**
   * `StringUtils.substringBeforeLast(str, separator)`: the text before the
   * last occurrence of the separator; the whole string when it does not
   * occur or the separator is empty.
   */
  function SubstringBeforeLast(str: string, separator: string): (r: string)
    ensures StartsWith(str, r)
    ensures |separator| != 0 ==>
      && (r == str <==> LastIndexOf(str, separator) == -1)
      && (r != str ==> OccursAt(str, separator, |r|))
      && forall j :: |r| < j ==> !OccursAt(str, separator, j)
  {
    if |str| == 0 || |separator| == 0 then str
    else
      var pos := LastIndexOf(str, separator);
      if pos == -1 then str else str[..pos]
  }

  /**
   * `StringUtils.substringAfter(str, separator)`: the text after the first
   * occurrence of the separator; the empty string when it does not occur.
   */
  function SubstringAfter(str: string, separator: string): (r: string)
    ensures |r| <= |str|
    ensures |str| != 0 && IndexOf(str, separator) == -1 ==> r == ""
    ensures IndexOf(str, separator) != -1 ==>
      r == str[IndexOf(str, separator) + |separator|..]
  {
    if |str| == 0 then str
    else
      var pos := IndexOf(str, separator);
      if pos == -1 then "" else str[pos + |separator|..]
  }
}
