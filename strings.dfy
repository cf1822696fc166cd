/** The parts of Rust's `str` API that the gateway's decisions depend on:
    `starts_with`, `ends_with`, `trim` (Unicode White_Space), `trim_matches`
    with a single character, and `split` on a single character. */
module Strings {

  /** Rust's `char::is_whitespace`: the Unicode White_Space property. */
  predicate IsWhitespace(c: char)
  {
    ('\U{9}' <= c <= '\U{D}') || c == '\U{20}' || c == '\U{85}' || c == '\U{A0}'
    || c == '\U{1680}' || ('\U{2000}' <= c <= '\U{200A}') || c == '\U{2028}'
    || c == '\U{2029}' || c == '\U{202F}' || c == '\U{205F}' || c == '\U{3000}'
  }

  predicate StartsWith(s: string, prefix: string)
  {
    |prefix| <= |s| && s[..|prefix|] == prefix
  }

  predicate EndsWith(s: string, suffix: string)
  {
    |suffix| <= |s| && s[|s| - |suffix|..] == suffix
  }

  /** Number of leading characters of `s` that satisfy `strip`. */
  function LeadingCount(s: string, strip: char -> bool): (n: nat)
    ensures n <= |s|
    ensures forall k :: 0 <= k < n ==> strip(s[k])
    ensures n < |s| ==> !strip(s[n])
  {
    if s == [] || !strip(s[0]) then 0 else 1 + LeadingCount(s[1..], strip)
  }

  /** Number of trailing characters of `s` that satisfy `strip`. */
  function TrailingCount(s: string, strip: char -> bool): (n: nat)
    ensures n <= |s|
    ensures forall k :: |s| - n <= k < |s| ==> strip(s[k])
    ensures n < |s| ==> !strip(s[|s| - n - 1])
  {
    if s == [] || !strip(s[|s| - 1]) then 0 else 1 + TrailingCount(s[..|s| - 1], strip)
  }

  /** `str::trim`: drop leading and trailing whitespace. */
  function Trim(s: string): (r: string)
    ensures r == [] || (!IsWhitespace(r[0]) && !IsWhitespace(r[|r| - 1]))
    ensures forall k :: 0 <= k < |r| ==> r[k] in s
  {
    var lead := s[LeadingCount(s, IsWhitespace)..];
    lead[..|lead| - TrailingCount(lead, IsWhitespace)]
  }

  /** Dropping the runs of characters that satisfy `strip` from both ends
      of a string wrapped in such runs gives back the string, when the
      string neither starts nor ends with such a character. */
  lemma StripWrapped(p: string, m: string, q: string, strip: char -> bool)
    requires forall k :: 0 <= k < |p| ==> strip(p[k])
    requires forall k :: 0 <= k < |q| ==> strip(q[k])
    requires m != [] && !strip(m[0]) && !strip(m[|m| - 1])
    ensures var s := p + m + q;
      var lead := s[LeadingCount(s, strip)..];
      lead[..|lead| - TrailingCount(lead, strip)] == m
  {
    var s := p + m + q;
    var n := LeadingCount(s, strip);
    assert s[|p|] == m[0];
    assert n == |p|;
    var lead := s[n..];
    assert lead == m + q;
    var t := TrailingCount(lead, strip);
    assert lead[|m| - 1] == m[|m| - 1];
    assert t == |q|;
    assert lead[..|lead| - t] == m;
  }

  /** A string made only of characters that satisfy `strip` is stripped to
      nothing. */
  lemma StripAll(s: string, strip: char -> bool)
    requires forall k :: 0 <= k < |s| ==> strip(s[k])
    ensures var lead := s[LeadingCount(s, strip)..];
      lead[..|lead| - TrailingCount(lead, strip)] == []
  {
  }

  /** `trim` removes exactly the leading and trailing White_Space: a text
      wrapped in White_Space comes back as it was, when its own ends are
      not White_Space. */
  lemma TrimWrapped(p: string, m: string, q: string)
    requires forall k :: 0 <= k < |p| ==> IsWhitespace(p[k])
    requires forall k :: 0 <= k < |q| ==> IsWhitespace(q[k])
    requires m != [] && !IsWhitespace(m[0]) && !IsWhitespace(m[|m| - 1])
    ensures Trim(p + m + q) == m
  {
    StripWrapped(p, m, q, IsWhitespace);
  }

  /** An all-White_Space text trims to the empty string. */
  lemma TrimAllWhitespace(s: string)
    requires forall k :: 0 <= k < |s| ==> IsWhitespace(s[k])
    ensures Trim(s) == ""
  {
    StripAll(s, IsWhitespace);
  }

  /** `str::trim_matches(c)` for a single character `c`. */
  function TrimMatches(s: string, c: char): (r: string)
    ensures r == [] || (r[0] != c && r[|r| - 1] != c)
  {
    var strip := (x: char) => x == c;
    var lead := s[LeadingCount(s, strip)..];
    lead[..|lead| - TrailingCount(lead, strip)]
  }

  /** Trimming a character off a string wrapped in runs of it gives back
      the string, when the string neither starts nor ends with it. */
  lemma TrimMatchesWrapped(p: string, m: string, q: string, c: char)
    requires forall k :: 0 <= k < |p| ==> p[k] == c
    requires forall k :: 0 <= k < |q| ==> q[k] == c
    requires m != [] && m[0] != c && m[|m| - 1] != c
    ensures TrimMatches(p + m + q, c) == m
  {
    StripWrapped(p, m, q, (x: char) => x == c);
  }

  /** A text made only of `c` trims to the empty string. */
  lemma TrimMatchesAll(s: string, c: char)
    requires forall k :: 0 <= k < |s| ==> s[k] == c
    ensures TrimMatches(s, c) == ""
  {
    StripAll(s, (x: char) => x == c);
  }

  /** `str::split(sep)` collected into a vector: the pieces between
      consecutive separators; always at least one piece. */
  function Split(s: string, sep: char): (parts: seq<string>)
    ensures |parts| >= 1
    ensures forall i :: 0 <= i < |parts| ==> sep !in parts[i]
  {
    if s == [] then [""]
    else
      var rest := Split(s[1..], sep);
      if s[0] == sep then [""] + rest
      else [[s[0]] + rest[0]] + rest[1..]
  }

  /** Inverse of Split: the pieces glued together with `sep`. */
  function Join(parts: seq<string>, sep: char): string
    requires |parts| >= 1
  {
    if |parts| == 1 then parts[0] else parts[0] + [sep] + Join(parts[1..], sep)
  }

  lemma {:induction false} JoinSplit(s: string, sep: char)
    ensures Join(Split(s, sep), sep) == s
  {
    if s != [] {
      var rest := Split(s[1..], sep);
      JoinSplit(s[1..], sep);
      if s[0] == sep {
        assert Split(s, sep) == [""] + rest;
        assert ([""] + rest)[1..] == rest;
      } else {
        var parts := [[s[0]] + rest[0]] + rest[1..];
        assert Split(s, sep) == parts;
        if |rest| > 1 {
          assert parts[1..] == rest[1..];
          assert Join(rest, sep) == rest[0] + [sep] + Join(rest[1..], sep);
        }
      }
    }
  }

  lemma {:induction false} SplitJoin(parts: seq<string>, sep: char)
    requires |parts| >= 1
    requires forall i :: 0 <= i < |parts| ==> sep !in parts[i]
    ensures Split(Join(parts, sep), sep) == parts
  {
    if |parts| == 1 {
      SplitNoSeparator(parts[0], sep);
    } else {
      var tail := Join(parts[1..], sep);
      SplitJoin(parts[1..], sep);
      SplitPrefix(parts[0], [sep] + tail, sep);
      assert Split([sep] + tail, sep) == [""] + parts[1..] by {
        assert ([sep] + tail)[1..] == tail;
      }
      assert parts[0] + [sep] + tail == parts[0] + ([sep] + tail);
      assert [parts[0] + ""] + ([""] + parts[1..])[1..] == parts by {
        assert parts[0] + "" == parts[0];
        assert ([""] + parts[1..])[1..] == parts[1..];
      }
    }
  }

  lemma {:induction false} SplitNoSeparator(s: string, sep: char)
    requires sep !in s
    ensures Split(s, sep) == [s]
  {
    if s != [] {
      SplitNoSeparator(s[1..], sep);
      assert [s[0]] + s[1..] == s;
    }
  }

  /** Splitting `a + b` when `a` holds no separator glues `a` onto the first
      piece of `b`. */
  lemma {:induction false} SplitPrefix(a: string, b: string, sep: char)
    requires sep !in a
    ensures Split(a + b, sep) == [a + Split(b, sep)[0]] + Split(b, sep)[1..]
  {
    if a == [] {
      assert a + b == b;
      assert a + Split(b, sep)[0] == Split(b, sep)[0];
      assert [Split(b, sep)[0]] + Split(b, sep)[1..] == Split(b, sep);
    } else {
      assert (a + b)[1..] == a[1..] + b;
      SplitPrefix(a[1..], b, sep);
      assert [a[0]] + (a[1..] + Split(b, sep)[0]) == a + Split(b, sep)[0];
    }
  }
}
