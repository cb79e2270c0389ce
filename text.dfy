/** The string operations the view model relies on: trimming whitespace and joining lines. */
module Text {

  /**
   * Foundation's `whitespacesAndNewlines` character set: the Unicode space separators,
   * tab, line feed, vertical tab, form feed, carriage return, next line and the
   * line and paragraph separators.
   */
  predicate IsWhitespace(c: char)
  {
    c == ' ' || ('\t' <= c <= '\r') || c == '\U{85}' || c == '\U{A0}' || c == '\U{1680}'
    || ('\U{2000}' <= c <= '\U{200A}') || c == '\U{2028}' || c == '\U{2029}'
    || c == '\U{202F}' || c == '\U{205F}' || c == '\U{3000}'
  }

  /** Every character of `s` is whitespace (true of the empty string). */
  predicate IsBlank(s: string)
  {
    forall i :: 0 <= i < |s| ==> IsWhitespace(s[i])
  }

  /** `s` without its leading whitespace: a suffix of `s` that is empty or starts with a non-space. */
  function TrimLeading(s: string): (r: string)
    ensures |r| <= |s| && r == s[|s| - |r|..]
    ensures IsBlank(s[..|s| - |r|])
    ensures r == [] || !IsWhitespace(r[0])
  {
    if s == [] || !IsWhitespace(s[0]) then s else TrimLeading(s[1..])
  }

  /** `s` without its trailing whitespace: a prefix of `s` that is empty or ends with a non-space. */
  function TrimTrailing(s: string): (r: string)
    ensures |r| <= |s| && r == s[..|r|]
    ensures IsBlank(s[|r|..])
    ensures r == [] || !IsWhitespace(r[|r| - 1])
  {
    if s == [] || !IsWhitespace(s[|s| - 1]) then s
    else
      var t := TrimTrailing(s[..|s| - 1]);
      assert s[|t|..] == s[..|s| - 1][|t|..] + [s[|s| - 1]];
      t
  }

  /**
   * `trimmingCharacters(in: .whitespacesAndNewlines)`: nothing is left exactly when the string is
   * all whitespace, and what is left neither starts nor ends with whitespace.
   */
  function Trim(s: string): (r: string)
    ensures |r| <= |s|
    ensures r == [] <==> IsBlank(s)
    ensures r != [] ==> !IsWhitespace(r[0]) && !IsWhitespace(r[|r| - 1])
  {
    TrimTrailing(TrimLeading(s))
  }

  /** Swift's `joined(separator:)`: the lines with `sep` between neighbours, "" for no lines. */
  function Join(lines: seq<string>, sep: string): string
  {
    if |lines| == 0 then ""
    else if |lines| == 1 then lines[0]
    else lines[0] + sep + Join(lines[1..], sep)
  }

  /** Joined text is empty for no lines; otherwise it starts with the first line and ends with the last. */
  lemma {:induction false} JoinEnds(lines: seq<string>, sep: string)
    ensures lines == [] ==> Join(lines, sep) == ""
    ensures |lines| > 0 ==>
      var r, first, last := Join(lines, sep), lines[0], lines[|lines| - 1];
      |first| <= |r| && r[..|first|] == first && |last| <= |r| && r[|r| - |last|..] == last
  {
    if |lines| > 1 {
      var rest := Join(lines[1..], sep);
      var last := lines[|lines| - 1];
      JoinEnds(lines[1..], sep);
      assert last == lines[1..][|lines[1..]| - 1];
      assert (lines[0] + sep + rest)[|lines[0] + sep + rest| - |last|..] == rest[|rest| - |last|..];
    }
  }

  /** Joining one more line adds the separator and that line at the end. */
  lemma {:induction false} JoinSnoc(lines: seq<string>, line: string, sep: string)
    requires |lines| > 0
    ensures Join(lines + [line], sep) == Join(lines, sep) + sep + line
  {
    if |lines| == 1 {
      assert (lines + [line])[1..] == [line];
    } else {
      JoinSnoc(lines[1..], line, sep);
      assert (lines + [line])[1..] == lines[1..] + [line];
    }
  }

  /** One more line lands after the joined lines and a separator, or alone when there were none. */
  lemma JoinAfter(lines: seq<string>, line: string, sep: string)
    ensures Join(lines + [line], sep) == (if lines == [] then "" else Join(lines, sep) + sep) + line
  {
    if lines == [] {
      assert lines + [line] == [line];
    } else {
      JoinSnoc(lines, line, sep);
    }
  }
}
