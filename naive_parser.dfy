/**
 * The first, naive line splitter: strip the line, give up on an empty one,
 * keep a short one whole, and otherwise cut off date, time, level and
 * source, keeping the rest as the message.
 */
module NaiveParser {
  import opened Wrappers
  import opened Text
  import StructuredParser

  /** The dictionaries `parse_line_naive` returns: `{"raw": ...}` or the four header keys. */
  datatype NaiveEntry =
    | Raw(raw: string)
    | Parsed(timestamp: string, level: string, source: string, message: string)

  /** `parse_line_naive`. */
  function ParseLineNaive(line: string): (r: Option<NaiveEntry>)
    ensures r.None? <==> Tokens(line) == []
    ensures r.Some? ==> (r.value.Parsed? <==> |Tokens(line)| >= 4)
  {
    StripEmptyIffNoTokens(line);
    TokensOfStrip(line);
    var stripped := Strip(line);
    if stripped == "" then None
    else
      var parts := Tokens(stripped);
      if |parts| < 4 then Some(Raw(stripped))
      else Some(Parsed(parts[0] + " " + parts[1], parts[2], parts[3], JoinSpace(parts[4..])))
  }

  /**
   * An empty or whitespace-only line gives nothing; a line of one to three
   * tokens is kept whole, stripped; a longer line is split into a header
   * that agrees field for field with the structured parser's header split,
   * whose body is the message.
   */
  lemma NaiveCases(line: string)
    ensures ParseLineNaive(line).None? <==> Tokens(line) == []
    ensures 0 < |Tokens(line)| < 4 ==> ParseLineNaive(line) == Some(Raw(Strip(line)))
    ensures |Tokens(line)| >= 4 ==>
      var h := StructuredParser.SplitHeaderAndBody(line).value;
      ParseLineNaive(line) == Some(Parsed(h.timestamp, h.level, h.source, h.body))
  {
    StripEmptyIffNoTokens(line);
    TokensOfStrip(line);
  }

  /** The message holds tokens five onwards, so it is empty exactly for a four-token line. */
  lemma NaiveMessage(line: string)
    requires |Tokens(line)| >= 4
    ensures ParseLineNaive(line).Some? && ParseLineNaive(line).value.Parsed?
    ensures Tokens(ParseLineNaive(line).value.message) == Tokens(line)[4..]
    ensures ParseLineNaive(line).value.message == "" <==> |Tokens(line)| == 4
  {
    NaiveCases(line);
    StructuredParser.HeaderOfLine(line);
  }

  /** A kept-whole line carries no surrounding whitespace and the same tokens as the input. */
  lemma NaiveRaw(line: string)
    requires 0 < |Tokens(line)| < 4
    ensures ParseLineNaive(line).Some? && ParseLineNaive(line).value.Raw?
    ensures var r := ParseLineNaive(line).value.raw;
      r != "" && !IsSpace(r[0]) && !IsSpace(r[|r| - 1]) && Tokens(r) == Tokens(line)
  {
    NaiveCases(line);
    TokensOfStrip(line);
    var l := LStrip(line);
    var r := RStrip(l);
    assert r != [];
    assert r == l[..|r|];
    assert r[0] == l[0];
  }
}
