/** The ASCII part of the Python string operations the answer selector and the report
    renderer use: `lower()`, `strip()`, `title()`, substring search and `any(...)`. */
module Text {

  predicate IsUpper(c: char) { 'A' <= c <= 'Z' }

  predicate IsLower(c: char) { 'a' <= c <= 'z' }

  predicate IsLetter(c: char) { IsUpper(c) || IsLower(c) }

  /** The ASCII characters Python's `str.isspace()` accepts: tab to carriage return,
      the four separators 0x1C-0x1F, and the blank. */
  predicate IsSpace(c: char) {
    var n := c as int;
    n == 32 || 9 <= n <= 13 || 28 <= n <= 31
  }

  function LowerChar(c: char): char {
    if IsUpper(c) then (c as int + 32) as char else c
  }

  function UpperChar(c: char): char {
    if IsLower(c) then (c as int - 32) as char else c
  }

  /** `s.lower()` on ASCII text. */
  function Lower(s: string): string {
    seq(|s|, i requires 0 <= i < |s| => LowerChar(s[i]))
  }

  /** `s.upper()` on ASCII text (used only to state case insensitivity). */
  function Upper(s: string): string {
    seq(|s|, i requires 0 <= i < |s| => UpperChar(s[i]))
  }

  /** The number of white-space characters `s` starts with. */
  function LeadingSpaces(s: string): (n: nat)
    ensures n <= |s|
    ensures forall k :: 0 <= k < n ==> IsSpace(s[k])
    ensures n < |s| ==> !IsSpace(s[n])
  {
    if s != [] && IsSpace(s[0]) then 1 + LeadingSpaces(s[1..]) else 0
  }

  /** The number of white-space characters `s` ends with. */
  function TrailingSpaces(s: string): (n: nat)
    ensures n <= |s|
    ensures forall k :: |s| - n <= k < |s| ==> IsSpace(s[k])
    ensures n < |s| ==> !IsSpace(s[|s| - n - 1])
  {
    if s != [] && IsSpace(s[|s| - 1]) then 1 + TrailingSpaces(s[..|s| - 1]) else 0
  }

  /** `r` is the slice of `s` at position `i`, and everything around it is white space. */
  ghost predicate SpaceAround(s: string, r: string, i: int) {
    && 0 <= i <= |s| - |r| && r == s[i..i + |r|]
    && (forall k :: 0 <= k < i ==> IsSpace(s[k]))
    && (forall k :: i + |r| <= k < |s| ==> IsSpace(s[k]))
  }

  /** `s.strip()`: the slice between the leading and the trailing white space, empty when
      they meet. */
  function Strip(s: string): string {
    var i := LeadingSpaces(s);
    var j := |s| - TrailingSpaces(s);
    if i < j then s[i..j] else []
  }

  /** Stripping gives the empty text exactly when `s` is all white space, and otherwise a
      slice of `s` that neither starts nor ends with white space, with only white space
      cut off around it. */
  lemma StripSpec(s: string)
    ensures Strip(s) == [] <==> forall k :: 0 <= k < |s| ==> IsSpace(s[k])
    ensures Strip(s) != [] ==> !IsSpace(Strip(s)[0]) && !IsSpace(Strip(s)[|Strip(s)| - 1])
    ensures exists i :: SpaceAround(s, Strip(s), i)
  {
    var i := LeadingSpaces(s);
    var j := |s| - TrailingSpaces(s);
    if i < j {
      assert SpaceAround(s, Strip(s), i);
    } else {
      assert SpaceAround(s, [], |s|);
    }
  }

  /** `s.title()` on ASCII text, with `afterLetter` telling whether the character before
      `s` was a letter: a letter after a letter is lowered, any other letter raised. */
  function TitleFrom(s: string, afterLetter: bool): string {
    if s == [] then []
    else
      var c := if !IsLetter(s[0]) then s[0] else if afterLetter then LowerChar(s[0]) else UpperChar(s[0]);
      [c] + TitleFrom(s[1..], IsLetter(s[0]))
  }

  /** `s.title()` on ASCII text. */
  function Title(s: string): string {
    TitleFrom(s, false)
  }

  /** A word in lower case, such as a sign name in the sign table. */
  predicate IsLowerWord(s: string) {
    s != [] && forall k :: 0 <= k < |s| ==> IsLower(s[k])
  }

  /** After a letter, a run of lower-case letters is kept as it is. */
  lemma {:induction false} TitleFromKeepsLowerRun(s: string)
    requires forall k :: 0 <= k < |s| ==> IsLower(s[k])
    ensures TitleFrom(s, true) == s
  {
    if s != [] {
      TitleFromKeepsLowerRun(s[1..]);
    }
  }

  /** Title case of a lower-case word raises its first letter and keeps the rest. */
  lemma TitleOfLowerWord(s: string)
    requires IsLowerWord(s)
    ensures Title(s) == [UpperChar(s[0])] + s[1..]
    ensures IsUpper(Title(s)[0])
  {
    TitleFromKeepsLowerRun(s[1..]);
  }

  /** `pattern` occurs in `text` starting at position `p`. */
  ghost predicate OccursAt(text: string, pattern: string, p: int) {
    0 <= p && p + |pattern| <= |text| && text[p..p + |pattern|] == pattern
  }

  /** Python's `pattern in text` for strings, as a left-to-right scan. */
  function Contains(text: string, pattern: string): bool
    decreases |text|
  {
    if |pattern| > |text| then false
    else if text[..|pattern|] == pattern then true
    else Contains(text[1..], pattern)
  }

  /** The scan finds `pattern` exactly when it occurs somewhere in `text`. */
  lemma {:induction false} ContainsIff(text: string, pattern: string)
    ensures Contains(text, pattern) <==> exists p :: OccursAt(text, pattern, p)
    decreases |text|
  {
    if |pattern| > |text| {
    } else if text[..|pattern|] == pattern {
      assert OccursAt(text, pattern, 0);
    } else {
      var rest := text[1..];
      ContainsIff(rest, pattern);
      if p :| OccursAt(rest, pattern, p) {
        assert text[p + 1..p + 1 + |pattern|] == rest[p..p + |pattern|];
        assert OccursAt(text, pattern, p + 1);
      }
      if p :| OccursAt(text, pattern, p) {
        assert p != 0;
        assert rest[p - 1..p - 1 + |pattern|] == text[p..p + |pattern|];
        assert OccursAt(rest, pattern, p - 1);
      }
    }
  }

  /** A pattern with a character that the text lacks does not occur in it. */
  lemma MissingCharNotContained(text: string, pattern: string, c: char)
    requires c in pattern && c !in text
    ensures !Contains(text, pattern)
  {
    ContainsIff(text, pattern);
  }

  /** No keyword occurs in a text that lacks one chosen letter of each keyword. */
  lemma NoneContainedByLetters(keywords: seq<string>, letters: seq<char>, text: string)
    requires |letters| == |keywords|
    requires forall i :: 0 <= i < |keywords| ==> letters[i] in keywords[i] && letters[i] !in text
    ensures forall i :: 0 <= i < |keywords| ==> !Contains(text, keywords[i])
  {
    forall i | 0 <= i < |keywords| ensures !Contains(text, keywords[i]) {
      MissingCharNotContained(text, keywords[i], letters[i]);
    }
  }

  /** Python's `any(k in text for k in keywords)`. */
  function AnyContained(keywords: seq<string>, text: string): (r: bool)
    ensures r <==> exists i :: 0 <= i < |keywords| && Contains(text, keywords[i])
  {
    if keywords == [] then false
    else if Contains(text, keywords[0]) then true
    else
      var r := AnyContained(keywords[1..], text);
      assert forall i :: 1 <= i < |keywords| ==> keywords[i] == keywords[1..][i - 1];
      r
  }

  /** Lower-casing twice changes nothing. */
  lemma LowerIdempotent(s: string)
    ensures Lower(Lower(s)) == Lower(s)
  {
  }

  /** Lower-casing forgets the case of the input. */
  lemma LowerOfUpper(s: string)
    ensures Lower(Upper(s)) == Lower(s)
  {
  }

  /** Text without upper-case letters is its own lower-case form. */
  lemma LowerKeepsLowerCase(s: string)
    requires forall k :: 0 <= k < |s| ==> !IsUpper(s[k])
    ensures Lower(s) == s
  {
  }

  /** Text that neither starts nor ends with white space is its own stripped form. */
  lemma StripKeepsTrimmed(s: string)
    requires s != [] ==> !IsSpace(s[0]) && !IsSpace(s[|s| - 1])
    ensures Strip(s) == s
  {
  }

  /** Lower-case letters of a pattern occurring in a text occur at the same place in the
      lower-cased text. */
  lemma LowerKeepsOccurrence(text: string, pattern: string, p: int)
    requires OccursAt(text, pattern, p)
    requires forall k :: 0 <= k < |pattern| ==> !IsUpper(pattern[k])
    ensures OccursAt(Lower(text), pattern, p)
  {
    assert Lower(text)[p..p + |pattern|] == Lower(text[p..p + |pattern|]);
    LowerKeepsLowerCase(pattern);
  }

  /** Lower-casing keeps white space where it is. */
  lemma LowerKeepsSpace(s: string)
    ensures |Lower(s)| == |s|
    ensures forall k :: 0 <= k < |s| ==> (IsSpace(Lower(s)[k]) <==> IsSpace(s[k]))
  {
  }
}
