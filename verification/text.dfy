/**
 * The few JavaScript string operations the search and filter code relies on:
 * `toLowerCase`, `includes`, `join`, `split` on one separator character and
 * `trim`. Strings are sequences of characters.
 */
module Text {

  /**
   * `toLowerCase` on one character. Covers the ASCII capitals and the Latin-1
   * capitals U+00C0..U+00DE (except U+00D7, the multiplication sign), which
   * lower-case by adding 0x20; every other character is left as it is.
   */
  function LowerChar(c: char): (r: char)
    ensures IsUpper(c) ==> r as int == c as int + 0x20 && !IsUpper(r)
    ensures !IsUpper(c) ==> r == c
    ensures !IsUpper(r)
  {
    if IsUpper(c) then (c as int + 0x20) as char else c
  }

  predicate IsUpper(c: char)
  {
    'A' <= c <= 'Z' || ('\U{00C0}' <= c <= '\U{00DE}' && c != '\U{00D7}')
  }

  /** `s.toLowerCase()`, character by character. */
  function Lower(s: string): (r: string)
    ensures |r| == |s|
    ensures forall i :: 0 <= i < |s| ==> r[i] == LowerChar(s[i])
  {
    seq(|s|, i requires 0 <= i < |s| => LowerChar(s[i]))
  }

  /** Lower-casing twice is lower-casing once. */
  lemma LowerIdempotent(s: string)
    ensures Lower(Lower(s)) == Lower(s)
  {
  }

  /** Lower-casing distributes over concatenation (so over template strings). */
  lemma LowerAppend(a: string, b: string)
    ensures Lower(a + b) == Lower(a) + Lower(b)
  {
  }

  /** `text.includes(pattern)`: `pattern` occurs in `text` at some position. */
  predicate Contains(text: string, pattern: string)
    decreases |text|
  {
    pattern <= text || (|text| > 0 && Contains(text[1..], pattern))
  }

  /** `pattern` occurs in `text` starting at index `i`. */
  predicate OccursAt(text: string, pattern: string, i: int)
  {
    0 <= i <= |text| - |pattern| && text[i..i + |pattern|] == pattern
  }

  /** Lower-casing a slice is slicing the lower-cased text. */
  lemma LowerSlice(s: string, i: int, j: int)
    requires 0 <= i <= j <= |s|
    ensures Lower(s)[i..j] == Lower(s[i..j])
  {
  }

  /** An occurrence inside an occurrence is an occurrence. */
  lemma OccursWithin(text: string, outer: string, inner: string, i: int, j: int)
    requires OccursAt(text, outer, i) && OccursAt(outer, inner, j)
    ensures OccursAt(text, inner, i + j)
  {
    forall k | 0 <= k < |inner|
      ensures text[i + j + k] == inner[k]
    {
      assert inner[k] == outer[j + k] == text[i + j + k];
    }
  }

  /** The position-based reading of `Contains`: `pattern` occurs at some index of `text`. */
  lemma {:induction false} ContainsAt(text: string, pattern: string)
    ensures Contains(text, pattern) <==> exists i :: OccursAt(text, pattern, i)
    decreases |text|
  {
    if pattern <= text {
      assert OccursAt(text, pattern, 0);
    } else if |text| > 0 {
      ContainsAt(text[1..], pattern);
      forall i | 0 < i <= |text| - |pattern|
        ensures OccursAt(text, pattern, i) <==> OccursAt(text[1..], pattern, i - 1)
      {
        assert text[i..i + |pattern|] == text[1..][i - 1..i - 1 + |pattern|];
      }
      if Contains(text[1..], pattern) {
        var i :| OccursAt(text[1..], pattern, i);
        assert OccursAt(text, pattern, i + 1);
      }
    }
  }

  /** Every string contains the empty string. */
  lemma ContainsEmpty(text: string)
    ensures Contains(text, "")
  {
  }

  /** A string contains itself. */
  lemma ContainsSelf(text: string)
    ensures Contains(text, text)
  {
  }

  /** Case-insensitive `includes`, as written `a.toLowerCase().includes(b.toLowerCase())`. */
  predicate ContainsIgnoringCase(text: string, pattern: string)
  {
    Contains(Lower(text), Lower(pattern))
  }

  /**
   * `s` and `t` differ at most in the case of letters: at each position the
   * characters are equal, or one is a capital and the other its small letter.
   */
  predicate SameIgnoringCase(s: string, t: string)
  {
    |s| == |t| &&
    forall i :: 0 <= i < |s| ==>
      || s[i] == t[i]
      || (IsUpper(s[i]) && t[i] as int == s[i] as int + 0x20)
      || (IsUpper(t[i]) && s[i] as int == t[i] as int + 0x20)
  }

  /** Strings that differ only in case lower-case to the same string. */
  lemma CaseVariantsFold(s: string, t: string)
    requires SameIgnoringCase(s, t)
    ensures Lower(s) == Lower(t)
  {
  }

  /**
   * A case-insensitive match finds every case variant of a pattern the text
   * holds: `text.toLowerCase().includes(variant.toLowerCase())`.
   */
  lemma CaseVariantFound(text: string, pattern: string, variant: string)
    requires Contains(text, pattern)
    requires SameIgnoringCase(pattern, variant)
    ensures ContainsIgnoringCase(text, variant)
  {
    ContainsAt(text, pattern);
    var i :| OccursAt(text, pattern, i);
    LowerSlice(text, i, i + |pattern|);
    CaseVariantsFold(pattern, variant);
    assert OccursAt(Lower(text), Lower(variant), i);
    ContainsAt(Lower(text), Lower(variant));
  }

  /** `parts.join(sep)`. */
  function Join(parts: seq<string>, sep: string): string
  {
    if |parts| == 0 then ""
    else if |parts| == 1 then parts[0]
    else parts[0] + sep + Join(parts[1..], sep)
  }

  /**
   * `s.split(sep)` for a one-character separator: the maximal runs between
   * separators, in order. Never empty; the empty string gives `[""]`.
   */
  function Split(s: string, sep: char): (r: seq<string>)
    ensures |r| >= 1
    ensures forall k :: 0 <= k < |r| ==> sep !in r[k]
    decreases |s|
  {
    if s == [] then [""]
    else
      var rest := Split(s[1..], sep);
      if s[0] == sep then [""] + rest
      else [[s[0]] + rest[0]] + rest[1..]
  }

  /** Joining the pieces of a split with the separator gives back the input. */
  lemma {:induction false} JoinSplit(s: string, sep: char)
    ensures Join(Split(s, sep), [sep]) == s
    decreases |s|
  {
    if s != [] {
      var rest := Split(s[1..], sep);
      JoinSplit(s[1..], sep);
      if s[0] == sep {
        assert Split(s, sep) == [""] + rest;
        assert ([""] + rest)[1..] == rest;
      } else {
        assert Split(s, sep) == [[s[0]] + rest[0]] + rest[1..];
        if |rest| > 1 {
          assert ([[s[0]] + rest[0]] + rest[1..])[1..] == rest[1..];
        }
      }
    }
  }

  /** A string without the separator splits into exactly itself. */
  lemma {:induction false} SplitNoSeparator(s: string, sep: char)
    requires sep !in s
    ensures Split(s, sep) == [s]
    decreases |s|
  {
    if s != [] {
      SplitNoSeparator(s[1..], sep);
      assert [s[0]] + s[1..] == s;
    }
  }

  /**
   * The characters `String.prototype.trim` strips: the ECMAScript WhiteSpace
   * (tab, vertical tab, form feed, space, no-break space, byte order mark and
   * the space separators U+1680, U+2000..U+200A, U+202F, U+205F, U+3000) and
   * LineTerminator (LF, CR, U+2028, U+2029) characters.
   */
  predicate IsSpace(c: char)
  {
    c == '\t' || c == '\n' || c == '\U{000B}' || c == '\U{000C}' || c == '\r' || c == ' ' ||
    c == '\U{00A0}' || c == '\U{1680}' || ('\U{2000}' <= c <= '\U{200A}') ||
    c == '\U{2028}' || c == '\U{2029}' || c == '\U{202F}' || c == '\U{205F}' ||
    c == '\U{3000}' || c == '\U{FEFF}'
  }

  /** The length of the run of white space that `s` starts with. */
  function LeadingSpaces(s: string): (n: nat)
    ensures n <= |s|
    ensures n < |s| ==> !IsSpace(s[n])
    decreases |s|
  {
    if s != [] && IsSpace(s[0]) then 1 + LeadingSpaces(s[1..]) else 0
  }

  /** The length of the run of white space that `s` ends with. */
  function TrailingSpaces(s: string): (n: nat)
    ensures n <= |s|
    ensures n < |s| ==> !IsSpace(s[|s| - 1 - n])
    decreases |s|
  {
    if s != [] && IsSpace(s[|s| - 1]) then 1 + TrailingSpaces(s[..|s| - 1]) else 0
  }

  /** Every character of the leading run is white space. */
  lemma {:induction false} LeadingSpacesAreSpaces(s: string)
    ensures forall i :: 0 <= i < LeadingSpaces(s) ==> IsSpace(s[i])
    decreases |s|
  {
    if s != [] && IsSpace(s[0]) {
      LeadingSpacesAreSpaces(s[1..]);
      assert forall i :: 1 <= i < LeadingSpaces(s) ==> s[i] == s[1..][i - 1];
    }
  }

  /** Every character of the trailing run is white space. */
  lemma {:induction false} TrailingSpacesAreSpaces(s: string)
    ensures forall i :: |s| - TrailingSpaces(s) <= i < |s| ==> IsSpace(s[i])
    decreases |s|
  {
    if s != [] && IsSpace(s[|s| - 1]) {
      TrailingSpacesAreSpaces(s[..|s| - 1]);
      assert forall i :: |s| - TrailingSpaces(s) <= i < |s| - 1 ==> s[i] == s[..|s| - 1][i];
    }
  }

  /** `s.trimStart()`: the result is a suffix and all that was dropped is space. */
  function TrimStart(s: string): (r: string)
    ensures |r| <= |s| && r == s[|s| - |r|..]
    ensures forall i :: 0 <= i < |s| - |r| ==> IsSpace(s[i])
    ensures r == [] || !IsSpace(r[0])
  {
    LeadingSpacesAreSpaces(s);
    s[LeadingSpaces(s)..]
  }

  /** `s.trimEnd()`: the result is a prefix and all that was dropped is space. */
  function TrimEnd(s: string): (r: string)
    ensures |r| <= |s| && r == s[..|r|]
    ensures forall i :: |r| <= i < |s| ==> IsSpace(s[i])
    ensures r == [] || !IsSpace(r[|r| - 1])
  {
    TrailingSpacesAreSpaces(s);
    s[..|s| - TrailingSpaces(s)]
  }

  /** `s.trim()`. */
  function Trim(s: string): string
  {
    TrimEnd(TrimStart(s))
  }

  /** `s[i..][..n]` is `s[i..i + n]`. */
  lemma SliceOfSuffix(s: string, i: int, n: int)
    requires 0 <= i <= |s| && 0 <= n <= |s| - i
    ensures s[i..][..n] == s[i..i + n]
  {
  }

  /** The trimmed string occurs in the input and has no space at either end. */
  lemma TrimSpec(s: string)
    ensures var r := Trim(s);
      (r == [] || (!IsSpace(r[0]) && !IsSpace(r[|r| - 1]))) &&
      OccursAt(s, r, |s| - |TrimStart(s)|)
  {
    var t := TrimStart(s);
    var r := TrimEnd(t);
    if r != [] {
      assert r[0] == t[0];
    }
    SliceOfSuffix(s, |s| - |t|, |r|);
  }

  /** Trimming twice is trimming once. */
  lemma TrimIdempotent(s: string)
    ensures Trim(Trim(s)) == Trim(s)
  {
    TrimSpec(s);
    TrimOfTrimmed(Trim(s));
  }

  /** A string without space at either end is its own trim. */
  lemma TrimOfTrimmed(r: string)
    requires r == [] || (!IsSpace(r[0]) && !IsSpace(r[|r| - 1]))
    ensures Trim(r) == r
  {
    assert LeadingSpaces(r) == 0;
    assert TrimStart(r) == r;
    assert TrailingSpaces(r) == 0;
  }
}
