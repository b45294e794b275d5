/**
 * The two string rules of the predict handler: the blank-input test
 * `review.strip() == ""` and the review excerpt kept in the history table.
 */
module Text {

  /**
   * The 29 code points of CPython's whitespace table, written out one by one:
   * the characters for which `str.isspace()` holds.
   */
  const PythonWhitespace: set<char> := {
    '\U{9}', '\U{A}', '\U{B}', '\U{C}', '\U{D}', '\U{1C}', '\U{1D}', '\U{1E}', '\U{1F}', '\U{20}',
    '\U{85}', '\U{A0}', '\U{1680}',
    '\U{2000}', '\U{2001}', '\U{2002}', '\U{2003}', '\U{2004}', '\U{2005}',
    '\U{2006}', '\U{2007}', '\U{2008}', '\U{2009}', '\U{200A}',
    '\U{2028}', '\U{2029}', '\U{202F}', '\U{205F}', '\U{3000}'
  }

  /** The characters Python's `str.strip()` (no argument) removes, tested by code-point ranges. */
  predicate IsWhitespace(c: char) {
    ('\U{9}' <= c <= '\U{D}') || ('\U{1C}' <= c <= '\U{20}') ||
    c == '\U{85}' || c == '\U{A0}' || c == '\U{1680}' ||
    ('\U{2000}' <= c <= '\U{200A}') ||
    c == '\U{2028}' || c == '\U{2029}' || c == '\U{202F}' || c == '\U{205F}' || c == '\U{3000}'
  }

  /** The range test and the table agree on every character. */
  lemma IsWhitespaceMatchesTable(c: char)
    ensures IsWhitespace(c) <==> c in PythonWhitespace
  {
  }

  /** Empty or whitespace-only. */
  predicate IsBlank(s: string) {
    forall i :: 0 <= i < |s| ==> IsWhitespace(s[i])
  }

  /** `s.lstrip()`: the longest suffix of `s` that does not start with whitespace. */
  function TrimStart(s: string): (r: string)
    ensures |r| <= |s| && r == s[|s| - |r|..]
    ensures forall i :: 0 <= i < |s| - |r| ==> IsWhitespace(s[i])
    ensures r == [] || !IsWhitespace(r[0])
  {
    if s != [] && IsWhitespace(s[0]) then TrimStart(s[1..]) else s
  }

  /** `s.rstrip()`: the longest prefix of `s` that does not end with whitespace. */
  function TrimEnd(s: string): (r: string)
    ensures |r| <= |s| && r == s[..|r|]
    ensures forall i :: |r| <= i < |s| ==> IsWhitespace(s[i])
    ensures r == [] || !IsWhitespace(r[|r| - 1])
  {
    if s != [] && IsWhitespace(s[|s| - 1]) then TrimEnd(s[..|s| - 1]) else s
  }

  /**
   * `s.strip()`: whitespace removed from both ends. It is empty exactly when
   * the whole of `s` is whitespace, and otherwise neither starts nor ends with it.
   */
  function Strip(s: string): (r: string)
    ensures |r| <= |s|
    ensures r == [] <==> IsBlank(s)
    ensures r == [] || (!IsWhitespace(r[0]) && !IsWhitespace(r[|r| - 1]))
    ensures exists k :: IsSliceBetweenBlanks(s, k, r)
  {
    var t := TrimStart(s);
    var r := TrimEnd(t);
    SliceBetweenBlanks(s, t, r);
    assert IsSliceBetweenBlanks(s, |s| - |t|, r);
    r
  }

  /** `r` is `s[k..k + |r|]`, and everything of `s` before and after it is whitespace. */
  predicate IsSliceBetweenBlanks(s: string, k: int, r: string) {
    0 <= k <= |s| - |r| && r == s[k..k + |r|] && IsBlank(s[..k]) && IsBlank(s[k + |r|..])
  }

  /**
   * A suffix `t` of `s` after a blank head, and a prefix `r` of `t` before a
   * blank tail: `r` is the slice of `s` between two blank parts.
   */
  lemma SliceBetweenBlanks(s: string, t: string, r: string)
    requires |t| <= |s| && t == s[|s| - |t|..]
    requires forall i :: 0 <= i < |s| - |t| ==> IsWhitespace(s[i])
    requires |r| <= |t| && r == t[..|r|]
    requires forall i :: |r| <= i < |t| ==> IsWhitespace(t[i])
    ensures var k := |s| - |t|;
            r == s[k..k + |r|] && IsBlank(s[..k]) && IsBlank(s[k + |r|..])
  {
  }

  /** Number of review characters kept in a history excerpt. */
  const ExcerptLength := 50

  /** Marker appended to a shortened excerpt. */
  const Ellipsis := "..."

  /**
   * The history table's "Review" column, `review[:50] + "..." if len(review) > 50 else review`:
   * a review of at most 50 characters is kept whole; a longer one is cut to its
   * first 50 characters followed by "...".
   */
  function Excerpt(review: string): (e: string)
    ensures |e| <= ExcerptLength + |Ellipsis|
    ensures |review| <= ExcerptLength ==> e == review
    ensures |review| > ExcerptLength ==> |e| == ExcerptLength + |Ellipsis| && e[ExcerptLength..] == Ellipsis
    ensures forall i :: 0 <= i < ExcerptLength && i < |review| ==> i < |e| && e[i] == review[i]
  {
    if |review| > ExcerptLength then review[..ExcerptLength] + Ellipsis else review
  }

  /** Taking the excerpt of an excerpt changes nothing. */
  lemma ExcerptIdempotent(review: string)
    ensures Excerpt(Excerpt(review)) == Excerpt(review)
  {
  }
}
