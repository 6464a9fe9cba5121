/**
 * The structured parser for plain-text log lines of the form
 *   `<date> <time> <LEVEL> <Source> key=value ... free text ...`
 * A line is cut into whitespace-separated tokens; the first four form the
 * header and the rest, re-joined by single spaces, is the body. Every body
 * token is either a `key=value` field or a piece of the free-text message.
 */
module StructuredParser {
  import opened Wrappers
  import opened Text

  /** One parsed line; `fields` maps each key to the last value given for it. */
  datatype LogEntry = LogEntry(
    timestamp: string,
    level: string,
    source: string,
    fields: map<string, string>,
    rawMessage: string)

  /** The header of a line and its unparsed body. */
  datatype Header = Header(timestamp: string, level: string, source: string, body: string)

  // ---------------------------------------------------------------------------
  // Header
  // ---------------------------------------------------------------------------

  /**
   * `_split_header_and_body`: no header for fewer than four tokens;
   * otherwise date and time, level, source, and the remaining tokens joined
   * by single spaces.
   */
  function SplitHeaderAndBody(line: string): (r: Option<Header>)
    ensures r.None? <==> |Tokens(line)| < 4
  {
    var parts := Tokens(line);
    if |parts| < 4 then None
    else Some(Header(parts[0] + " " + parts[1], parts[2], parts[3], JoinSpace(parts[4..])))
  }

  /**
   * The header split loses nothing but whitespace: the timestamp holds the
   * first two tokens, level and source are the next two verbatim, and the
   * body holds the rest, so it is empty exactly for a four-token line.
   */
  lemma HeaderOfLine(line: string)
    requires |Tokens(line)| >= 4
    ensures var h := SplitHeaderAndBody(line).value;
      var parts := Tokens(line);
      && h.timestamp == parts[0] + " " + parts[1]
      && Tokens(h.timestamp) == parts[..2]
      && h.level == parts[2]
      && h.source == parts[3]
      && Tokens(h.body) == parts[4..]
      && (h.body == "" <==> |parts| == 4)
  {
    var parts := Tokens(line);
    var h := SplitHeaderAndBody(line).value;
    assert JoinSpace(parts[..2]) == h.timestamp by {
      assert parts[..2][1..] == [parts[1]];
      assert JoinWith(parts[..2][1..], " ") == parts[1];
    }
    TokensOfJoin(parts[..2]);
    TokensOfJoin(parts[4..]);
  }

  // ---------------------------------------------------------------------------
  // key=value tokens
  // ---------------------------------------------------------------------------

  predicate AllWordChars(s: string) {
    forall i :: 0 <= i < |s| ==> IsWordChar(s[i])
  }

  /**
   * `kv_pattern.fullmatch(token)` for `(\w+)=(".*?"|\S+)` on a token without
   * whitespace: the key is the text before the first `=`, a non-empty run of
   * word characters, and the raw value is everything after it, non-empty.
   * (Both alternatives of the value group match the whole remainder.)
   */
  function KvMatch(token: string): (r: Option<(string, string)>)
    ensures r.Some? ==>
      && token == r.value.0 + "=" + r.value.1
      && r.value.0 != "" && AllWordChars(r.value.0)
      && r.value.1 != ""
  {
    match Find(token, "=")
    case None => None
    case Some(i) =>
      if 0 < i && i + 1 < |token| && AllWordChars(token[..i]) then
        assert token[i..i + 1] == "=";
        assert token == token[..i] + "=" + token[i + 1..];
        Some((token[..i], token[i + 1..]))
      else None
  }

  /** Every word-character key, `=`, and non-empty value is recognised as that pair. */
  lemma KvMatchOfPair(k: string, v: string)
    requires k != "" && AllWordChars(k) && v != ""
    ensures KvMatch(k + "=" + v) == Some((k, v))
  {
    var token := k + "=" + v;
    assert OccursAt(token, "=", |k|);
    forall j | 0 <= j < |k| ensures !OccursAt(token, "=", j) {
      assert token[j] == k[j];
      assert token[j..j + 1][0] == token[j];
    }
    assert Find(token, "=") == Some(|k|);
    assert token[..|k|] == k;
    assert token[|k| + 1..] == v;
  }

  /** The value kept for a field: surrounding double quotes removed, as `value[1:-1]` does. */
  function Unquote(v: string): string {
    if StartsWith(v, "\"") && EndsWith(v, "\"") then
      if |v| >= 2 then v[1..|v| - 1] else ""
    else v
  }

  /** Quotes come off only in pairs; a lone `"` becomes the empty value. */
  lemma UnquoteCases(v: string, w: string)
    ensures Unquote("\"" + w + "\"") == w
    ensures Unquote("\"") == ""
    ensures !(StartsWith(v, "\"") && EndsWith(v, "\"")) ==> Unquote(v) == v
  {
    var q := "\"" + w + "\"";
    assert q[..1] == "\"";
    assert q[|q| - 1..] == "\"";
    assert q[1..|q| - 1] == w;
  }

  // ---------------------------------------------------------------------------
  // Body
  // ---------------------------------------------------------------------------

  predicate IsField(token: string) {
    KvMatch(token).Some?
  }

  /** The fields a scan of `ts` collects: each field token overwrites its key. */
  function FieldsOf(ts: seq<string>): map<string, string> {
    if ts == [] then map[]
    else
      var m := FieldsOf(ts[..|ts| - 1]);
      match KvMatch(ts[|ts| - 1])
      case Some((k, v)) => m[k := Unquote(v)]
      case None => m
  }

  /** The non-field tokens of `ts`, in order. */
  function RawTokens(ts: seq<string>): seq<string> {
    if ts == [] then []
    else RawTokens(ts[..|ts| - 1]) + (if IsField(ts[|ts| - 1]) then [] else [ts[|ts| - 1]])
  }

  /** The field tokens of `ts`, in order. */
  function FieldTokens(ts: seq<string>): seq<string> {
    if ts == [] then []
    else FieldTokens(ts[..|ts| - 1]) + (if IsField(ts[|ts| - 1]) then [ts[|ts| - 1]] else [])
  }

  /** `_parse_body`: one pass over the body's tokens, filling `fields` and collecting the rest. */
  method ParseBody(body: string) returns (fields: map<string, string>, rawMessage: string)
    ensures fields == FieldsOf(Tokens(body))
    ensures rawMessage == JoinSpace(RawTokens(Tokens(body)))
  {
    var ts := Tokens(body);
    fields := map[];
    var rawTokens: seq<string> := [];
    for i := 0 to |ts|
      invariant fields == FieldsOf(ts[..i])
      invariant rawTokens == RawTokens(ts[..i])
    {
      assert ts[..i + 1][..i] == ts[..i];
      var token := ts[i];
      var m := KvMatch(token);
      if m.Some? {
        var (key, value) := m.value;
        fields := fields[key := Unquote(value)];
      } else {
        rawTokens := rawTokens + [token];
      }
    }
    assert ts[..|ts|] == ts;
    rawMessage := JoinSpace(rawTokens);
  }

  /** Every token goes to exactly one side: fields and free text together are the tokens. */
  lemma BodyPartition(ts: seq<string>)
    ensures multiset(FieldTokens(ts)) + multiset(RawTokens(ts)) == multiset(ts)
    ensures forall t :: t in FieldTokens(ts) ==> IsField(t)
    ensures forall t :: t in RawTokens(ts) ==> !IsField(t)
  {
    PartitionCounts(ts);
    FieldTokensAreFields(ts);
    RawTokensAreNotFields(ts);
  }

  lemma {:induction false} PartitionCounts(ts: seq<string>)
    ensures multiset(FieldTokens(ts)) + multiset(RawTokens(ts)) == multiset(ts)
  {
    if ts != [] {
      var init := ts[..|ts| - 1];
      var last := ts[|ts| - 1];
      PartitionCounts(init);
      assert ts == init + [last];
      if IsField(last) {
        assert FieldTokens(ts) == FieldTokens(init) + [last];
        assert RawTokens(ts) == RawTokens(init);
      } else {
        assert FieldTokens(ts) == FieldTokens(init);
        assert RawTokens(ts) == RawTokens(init) + [last];
      }
    }
  }

  lemma {:induction false} FieldTokensAreFields(ts: seq<string>)
    ensures forall t :: t in FieldTokens(ts) ==> IsField(t)
  {
    if ts != [] {
      FieldTokensAreFields(ts[..|ts| - 1]);
    }
  }

  lemma {:induction false} RawTokensAreNotFields(ts: seq<string>)
    ensures forall t :: t in RawTokens(ts) ==> !IsField(t)
  {
    if ts != [] {
      RawTokensAreNotFields(ts[..|ts| - 1]);
    }
  }

  /** Splitting the tokens anywhere splits the free text there: the original order is kept. */
  lemma {:induction false} RawTokensOfConcat(a: seq<string>, b: seq<string>)
    ensures RawTokens(a + b) == RawTokens(a) + RawTokens(b)
  {
    if b == [] {
      assert a + b == a;
    } else {
      assert (a + b)[..|a + b| - 1] == a + b[..|b| - 1];
      RawTokensOfConcat(a, b[..|b| - 1]);
    }
  }

  lemma {:induction false} RawTokensAreTokens(ts: seq<string>)
    ensures forall t :: t in RawTokens(ts) ==> t in ts
  {
    if ts != [] {
      RawTokensAreTokens(ts[..|ts| - 1]);
    }
  }

  /** The free-text message splits back into exactly the non-field tokens. */
  lemma RawMessageTokens(body: string)
    ensures Tokens(JoinSpace(RawTokens(Tokens(body)))) == RawTokens(Tokens(body))
  {
    var ts := Tokens(body);
    RawTokensAreTokens(ts);
    assert WellFormedTokens(RawTokens(ts)) by {
      forall i | 0 <= i < |RawTokens(ts)| ensures |RawTokens(ts)[i]| > 0 && NoSpace(RawTokens(ts)[i]) {
        assert RawTokens(ts)[i] in ts;
      }
    }
    TokensOfJoin(RawTokens(ts));
  }

  /** Token `i` of `ts` is a field with key `k`. */
  predicate HasKeyAt(ts: seq<string>, i: int, k: string) {
    0 <= i < |ts| && KvMatch(ts[i]).Some? && KvMatch(ts[i]).value.0 == k
  }

  /** A key is in `fields` exactly when some body token is a field with that key. */
  lemma {:induction false} FieldKeys(ts: seq<string>, k: string)
    ensures k in FieldsOf(ts) <==> exists i :: HasKeyAt(ts, i, k)
  {
    if ts != [] {
      var init := ts[..|ts| - 1];
      var last := |ts| - 1;
      FieldKeys(init, k);
      FieldKeysStep(ts, k);
      assert (exists i :: HasKeyAt(init, i, k)) ==> exists i :: HasKeyAt(ts, i, k) by {
        if exists i :: HasKeyAt(init, i, k) {
          var i :| HasKeyAt(init, i, k);
          assert init[i] == ts[i];
          assert HasKeyAt(ts, i, k);
        }
      }
      assert (exists i :: HasKeyAt(ts, i, k)) ==> HasKeyAt(ts, last, k) || exists i :: HasKeyAt(init, i, k) by {
        if exists i :: HasKeyAt(ts, i, k) {
          var i :| HasKeyAt(ts, i, k);
          if i < last {
            assert init[i] == ts[i];
            assert HasKeyAt(init, i, k);
          } else {
            assert i == last;
          }
        }
      }
    }
  }

  /** The last token adds its key, if it is a field; the others come from the tokens before it. */
  lemma FieldKeysStep(ts: seq<string>, k: string)
    requires ts != []
    ensures k in FieldsOf(ts) <==> HasKeyAt(ts, |ts| - 1, k) || k in FieldsOf(ts[..|ts| - 1])
  {
  }

  /** A later occurrence of a key overwrites an earlier one: the last field token wins. */
  lemma {:induction false} LastValueWins(ts: seq<string>, i: nat, k: string)
    requires HasKeyAt(ts, i, k)
    requires forall j :: i < j < |ts| ==> !HasKeyAt(ts, j, k)
    ensures k in FieldsOf(ts) && FieldsOf(ts)[k] == Unquote(KvMatch(ts[i]).value.1)
  {
    var init := ts[..|ts| - 1];
    if i < |ts| - 1 {
      assert !HasKeyAt(ts, |ts| - 1, k);
      forall j | i < j < |init| ensures !HasKeyAt(init, j, k) {
        assert !HasKeyAt(ts, j, k);
      }
      LastValueWins(init, i, k);
    }
  }

  // ---------------------------------------------------------------------------
  // Lines and files
  // ---------------------------------------------------------------------------

  /** What `parse_line` returns for `line`. */
  function EntryOf(line: string): Option<LogEntry> {
    match SplitHeaderAndBody(line)
    case None => None
    case Some(h) =>
      var ts := Tokens(h.body);
      Some(LogEntry(h.timestamp, h.level, h.source, FieldsOf(ts), JoinSpace(RawTokens(ts))))
  }

  /** `parse_line`. */
  method ParseLine(line: string) returns (r: Option<LogEntry>)
    ensures r == EntryOf(line)
  {
    var header := SplitHeaderAndBody(line);
    if header.None? {
      return None;
    }
    var h := header.value;
    var fields, rawMessage := ParseBody(h.body);
    r := Some(LogEntry(h.timestamp, h.level, h.source, fields, rawMessage));
  }

  /**
   * `parse_line` fails exactly when the header split does; otherwise the
   * entry's fields and message are those of the body after the fourth token.
   */
  lemma EntryOfLine(line: string)
    ensures EntryOf(line).None? <==> |Tokens(line)| < 4
    ensures |Tokens(line)| >= 4 ==>
      var e := EntryOf(line).value;
      var body := Tokens(line)[4..];
      && e.level == Tokens(line)[2] && e.source == Tokens(line)[3]
      && e.fields == FieldsOf(body)
      && Tokens(e.rawMessage) == RawTokens(body)
  {
    if |Tokens(line)| >= 4 {
      HeaderOfLine(line);
      RawMessageTokens(SplitHeaderAndBody(line).value.body);
    }
  }

  /** The entries `parse_file` collects from the lines of a file, in order. */
  function LinesToEntries(rawLines: seq<string>): seq<LogEntry> {
    if rawLines == [] then []
    else
      var entries := LinesToEntries(rawLines[..|rawLines| - 1]);
      var line := RStripNewlines(rawLines[|rawLines| - 1]);
      if line == "" then entries
      else
        match EntryOf(line)
        case None => entries
        case Some(e) => entries + [e]
  }

  /** The loop of `parse_file` over lines already read. */
  method ParseFile(rawLines: seq<string>) returns (entries: seq<LogEntry>)
    ensures entries == LinesToEntries(rawLines)
  {
    entries := [];
    for n := 0 to |rawLines|
      invariant entries == LinesToEntries(rawLines[..n])
    {
      assert rawLines[..n + 1][..n] == rawLines[..n];
      var line := RStripNewlines(rawLines[n]);
      if line == "" {
        continue;
      }
      var entry := ParseLine(line);
      if entry.Some? {
        entries := entries + [entry.value];
      }
    }
    assert rawLines[..|rawLines|] == rawLines;
  }

  /** The lines that parse, without stripping newlines or skipping empty lines first. */
  function ParsedLines(lines: seq<string>): seq<LogEntry> {
    if lines == [] then []
    else
      var entries := ParsedLines(lines[..|lines| - 1]);
      match EntryOf(lines[|lines| - 1])
      case None => entries
      case Some(e) => entries + [e]
  }

  /**
   * Neither the `rstrip("\n")` nor the empty-line check changes what
   * `parse_file` returns: an empty line has no header anyway, and trailing
   * newlines are whitespace to `split()`.
   */
  lemma {:induction false} EmptyLineFilterRedundant(rawLines: seq<string>)
    ensures LinesToEntries(rawLines) == ParsedLines(rawLines)
  {
    if rawLines != [] {
      var last := rawLines[|rawLines| - 1];
      EmptyLineFilterRedundant(rawLines[..|rawLines| - 1]);
      TokensOfRStripNewlines(last);
      assert EntryOf(RStripNewlines(last)) == EntryOf(last);
    }
  }
}
