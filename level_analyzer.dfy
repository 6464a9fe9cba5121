/**
 * The regex-based level classifier: a line of the shape
 *   `<indent><yyyy-mm-dd><gap><hh:mm:ss><gap>[LEVEL]<gap><message>`
 * with LEVEL one of INFO, WARN, ERROR is classified by its level; any other
 * line is UNKNOWN. The analysis counts levels over the lines of a log and
 * recommends actions when more than a tenth of the lines are errors.
 *
 * Lines are taken as the file iterator yields them, so a line may end in
 * one newline, which `$` in the pattern allows.
 */
module LevelAnalyzer {
  import opened Wrappers
  import opened Text
  import opened Counters

  // ---------------------------------------------------------------------------
  // LOG_PATTERN
  // ---------------------------------------------------------------------------

  /** `\d{4}-\d{2}-\d{2}`. */
  predicate IsDate(d: string) {
    && |d| == 10
    && IsDigit(d[0]) && IsDigit(d[1]) && IsDigit(d[2]) && IsDigit(d[3]) && d[4] == '-'
    && IsDigit(d[5]) && IsDigit(d[6]) && d[7] == '-'
    && IsDigit(d[8]) && IsDigit(d[9])
  }

  /** `\d{2}:\d{2}:\d{2}`. */
  predicate IsTime(t: string) {
    && |t| == 8
    && IsDigit(t[0]) && IsDigit(t[1]) && t[2] == ':'
    && IsDigit(t[3]) && IsDigit(t[4]) && t[5] == ':'
    && IsDigit(t[6]) && IsDigit(t[7])
  }

  predicate NoNewline(s: string) {
    forall i :: 0 <= i < |s| ==> s[i] != '\n'
  }

  /** The length of the whitespace run that starts `s`. */
  function SpaceRun(s: string): (k: nat)
    ensures k <= |s| && AllSpace(s[..k])
    ensures k < |s| ==> !IsSpace(s[k])
  {
    var r := LStrip(s);
    assert r != [] ==> s[|s| - |r|] == r[0];
    |s| - |r|
  }

  /** The matched groups: `datetime`, `level`, and the message after `strip()`. */
  datatype LogMatch = LogMatch(datetime: string, level: string, message: string)

  /** `\[(INFO|WARN|ERROR)\]` at the start of `r`: the level and the text after `]`. */
  function LevelTag(r: string): Option<(string, string)> {
    if StartsWith(r, "[INFO]") then Some(("INFO", r[6..]))
    else if StartsWith(r, "[WARN]") then Some(("WARN", r[6..]))
    else if StartsWith(r, "[ERROR]") then Some(("ERROR", r[7..]))
    else None
  }

  /** `$` may match before one final newline: the text the message part has to cover. */
  function DropFinalNewline(t: string): string {
    if t != [] && t[|t| - 1] == '\n' then t[..|t| - 1] else t
  }

  /** `\s+(.+)` covers `b` exactly: some whitespace, then a non-empty rest without newline. */
  predicate SpaceThenLine(b: string) {
    exists k :: 1 <= k < |b| && AllSpace(b[..k]) && NoNewline(b[k..])
  }

  /** The pattern from `[` on, for a matched date-time. */
  function MatchFromLevel(datetime: string, r: string): (m: Option<LogMatch>)
    ensures m.Some? ==> KnownLevel(m.value.level)
  {
    match LevelTag(r)
    case None => None
    case Some((level, t)) =>
      var b := DropFinalNewline(t);
      if SpaceThenLine(b) then Some(LogMatch(datetime, level, Strip(b))) else None
  }

  /**
   * `LOG_PATTERN.match(line)`, one part of the pattern at a time. Every
   * whitespace run of the pattern is followed by a digit or `[`, so each one
   * takes the whole run and no backtracking can change the outcome; only the
   * final `\s+(.+)$` has a choice, and any choice strips to the same message.
   */
  function MatchLog(line: string): (m: Option<LogMatch>)
    ensures m.Some? ==> KnownLevel(m.value.level)
    ensures m.Some? ==> |line| > SpaceRun(line) && IsDigit(line[SpaceRun(line)])
  {
    MatchDate(line[SpaceRun(line)..])
  }

  function MatchDate(r: string): (m: Option<LogMatch>)
    ensures m.Some? ==> KnownLevel(m.value.level) && |r| >= 10 && IsDate(r[..10])
  {
    if |r| < 10 || !IsDate(r[..10]) then None else MatchGap1(r[..10], r[10..])
  }

  function MatchGap1(date: string, a: string): (m: Option<LogMatch>)
    ensures m.Some? ==> KnownLevel(m.value.level)
  {
    var k := SpaceRun(a);
    if k == 0 then None else MatchTime(date + a[..k], a[k..])
  }

  function MatchTime(prefix: string, b: string): (m: Option<LogMatch>)
    ensures m.Some? ==> KnownLevel(m.value.level)
  {
    if |b| < 8 || !IsTime(b[..8]) then None else MatchGap2(prefix + b[..8], b[8..])
  }

  function MatchGap2(datetime: string, c: string): (m: Option<LogMatch>)
    ensures m.Some? ==> KnownLevel(m.value.level)
  {
    var k := SpaceRun(c);
    if k == 0 then None else MatchFromLevel(datetime, c[k..])
  }

  // ---------------------------------------------------------------------------
  // The lines the pattern accepts, built up from their parts
  // ---------------------------------------------------------------------------

  /** The parts of a log line in the pattern's layout. */
  datatype Layout = Layout(
    indent: string, date: string, gap1: string, time: string, gap2: string,
    level: string, gap3: string, text: string, newline: bool)

  function NewlineIf(b: bool): string {
    if b then "\n" else ""
  }

  function Tag(level: string): string {
    "[" + level + "]"
  }

  /** The text from the level tag on. */
  function Tail(l: Layout): string {
    Tag(l.level) + (l.gap3 + (l.text + NewlineIf(l.newline)))
  }

  function Render(l: Layout): string {
    l.indent + (l.date + (l.gap1 + (l.time + (l.gap2 + Tail(l)))))
  }

  predicate NonEmptySpace(s: string) {
    s != [] && AllSpace(s)
  }

  /** The layout is the pattern's except perhaps for the level. */
  predicate HeaderLayout(l: Layout) {
    && AllSpace(l.indent) && IsDate(l.date) && NonEmptySpace(l.gap1) && IsTime(l.time)
    && NonEmptySpace(l.gap2) && NonEmptySpace(l.gap3) && l.text != [] && NoNewline(l.text)
  }

  predicate KnownLevel(level: string) {
    level == "INFO" || level == "WARN" || level == "ERROR"
  }

  lemma SpaceRunOf(ws: string, x: string)
    requires AllSpace(ws)
    requires x == [] || !IsSpace(x[0])
    ensures SpaceRun(ws + x) == |ws|
    ensures (ws + x)[|ws|..] == x && (ws + x)[..|ws|] == ws
  {
    StripAfterSpace(ws, x);
  }

  lemma IndentStep(indent: string, r: string)
    requires AllSpace(indent) && |r| > 0 && IsDigit(r[0])
    ensures MatchLog(indent + r) == MatchDate(r)
  {
    SpaceRunOf(indent, r);
  }

  lemma DateStep(date: string, a: string)
    requires IsDate(date)
    ensures MatchDate(date + a) == MatchGap1(date, a)
  {
    assert (date + a)[..10] == date && (date + a)[10..] == a;
  }

  lemma Gap1Step(date: string, gap1: string, b: string)
    requires NonEmptySpace(gap1) && |b| > 0 && IsDigit(b[0])
    ensures MatchGap1(date, gap1 + b) == MatchTime(date + gap1, b)
  {
    SpaceRunOf(gap1, b);
  }

  lemma TimeStep(prefix: string, time: string, c: string)
    requires IsTime(time)
    ensures MatchTime(prefix, time + c) == MatchGap2(prefix + time, c)
  {
    assert (time + c)[..8] == time && (time + c)[8..] == c;
  }

  lemma Gap2Step(datetime: string, gap2: string, tail: string)
    requires NonEmptySpace(gap2) && |tail| > 0 && tail[0] == '['
    ensures MatchGap2(datetime, gap2 + tail) == MatchFromLevel(datetime, tail)
  {
    SpaceRunOf(gap2, tail);
  }

  /** Up to the level tag a laid-out line is taken apart into its parts. */
  lemma HeaderSteps(l: Layout)
    requires HeaderLayout(l)
    ensures MatchLog(Render(l)) == MatchFromLevel(l.date + l.gap1 + l.time, Tail(l))
  {
    var tail := Tail(l);
    assert tail[0] == '[';
    Gap2Step(l.date + l.gap1 + l.time, l.gap2, tail);
    TimeStep(l.date + l.gap1, l.time, l.gap2 + tail);
    Gap1Step(l.date, l.gap1, l.time + (l.gap2 + tail));
    DateStep(l.date, l.gap1 + (l.time + (l.gap2 + tail)));
    IndentStep(l.indent, l.date + (l.gap1 + (l.time + (l.gap2 + tail))));
  }

  /** The level tag of a known level is read off, leaving the text after `]`. */
  lemma LevelTagOf(level: string, rest: string)
    requires KnownLevel(level)
    ensures LevelTag(Tag(level) + rest) == Some((level, rest))
  {
    var r := Tag(level) + rest;
    if level == "ERROR" {
      assert r[..6] != "[INFO]" && r[..6] != "[WARN]" by {
        assert r[1] == 'E';
      }
      assert r[..7] == "[ERROR]";
      assert r[7..] == rest;
    } else {
      assert r[..6] == Tag(level);
      assert r[6..] == rest;
      if level == "WARN" {
        assert r[1] == 'W';
      }
    }
  }

  lemma DropNewlineOf(b: string, newline: bool)
    requires b != [] && b[|b| - 1] != '\n'
    ensures DropFinalNewline(b + NewlineIf(newline)) == b
  {
    if newline {
      assert (b + "\n")[..|b|] == b;
    } else {
      assert b + NewlineIf(newline) == b;
    }
  }

  lemma NewlineSplit(t: string) returns (newline: bool)
    ensures t == DropFinalNewline(t) + NewlineIf(newline)
  {
    newline := t != [] && t[|t| - 1] == '\n';
    if newline {
      Cut(t, |t| - 1);
    } else {
      assert DropFinalNewline(t) + NewlineIf(newline) == t;
    }
  }

  /** The message part of a laid-out line: `\s+(.+)$` with the final newline set aside. */
  lemma MessageStep(gap3: string, text: string, newline: bool)
    requires NonEmptySpace(gap3) && text != [] && NoNewline(text)
    ensures DropFinalNewline(gap3 + (text + NewlineIf(newline))) == gap3 + text
    ensures SpaceThenLine(gap3 + text)
    ensures Strip(gap3 + text) == Strip(text)
  {
    var b := gap3 + text;
    assert gap3 + (text + NewlineIf(newline)) == b + NewlineIf(newline);
    assert b[|b| - 1] == text[|text| - 1];
    DropNewlineOf(b, newline);
    var k := |gap3|;
    assert b[..k] == gap3 && b[k..] == text;
    assert 1 <= k < |b| && AllSpace(b[..k]) && NoNewline(b[k..]);
    StripAfterSpace(gap3, text);
  }

  /** Every laid-out line with a known level matches, with the stripped text as message. */
  lemma MatchRendered(l: Layout)
    requires HeaderLayout(l) && KnownLevel(l.level)
    ensures MatchLog(Render(l)) == Some(LogMatch(l.date + l.gap1 + l.time, l.level, Strip(l.text)))
  {
    HeaderSteps(l);
    var t := l.gap3 + (l.text + NewlineIf(l.newline));
    LevelTagOf(l.level, t);
    MessageStep(l.gap3, l.text, l.newline);
  }

  lemma DebugTag(level: string, rest: string)
    requires level == "DEBUG"
    ensures LevelTag(Tag(level) + rest) == None
  {
    var r := Tag(level) + rest;
    assert r[1] == 'D';
  }

  /** A `DEBUG` line never matches: the pattern knows only INFO, WARN and ERROR. */
  lemma DebugNeverMatches(l: Layout)
    requires HeaderLayout(l) && l.level == "DEBUG"
    ensures MatchLog(Render(l)) == None
  {
    HeaderSteps(l);
    DebugTag(l.level, l.gap3 + (l.text + NewlineIf(l.newline)));
  }

  /**
   * A line whose level is written without brackets, as in
   * `2025-11-16 09:00:01 INFO MobileApp ...`, never matches: after the time
   * the pattern wants `[`.
   */
  lemma UnbracketedLevelNeverMatches(date: string, gap1: string, time: string, gap2: string, rest: string)
    requires IsDate(date) && NonEmptySpace(gap1) && IsTime(time) && NonEmptySpace(gap2)
    requires rest != [] && rest[0] != '[' && !IsSpace(rest[0])
    ensures MatchLog(date + (gap1 + (time + (gap2 + rest)))) == None
  {
    var c := gap2 + rest;
    var b := time + c;
    var a := gap1 + b;
    assert MatchGap2(date + gap1 + time, c) == None by {
      SpaceRunOf(gap2, rest);
      assert LevelTag(rest) == None by {
        assert !StartsWith(rest, "[INFO]") && !StartsWith(rest, "[WARN]") && !StartsWith(rest, "[ERROR]") by {
          if |rest| >= 6 {
            assert rest[..6][0] == rest[0];
          }
        }
      }
    }
    TimeStep(date + gap1, time, c);
    assert b[0] == time[0];
    Gap1Step(date, gap1, b);
    DateStep(date, a);
    assert (date + a)[0] == date[0];
    IndentStep("", date + a);
    assert "" + (date + a) == date + a;
  }

  lemma Cut(s: string, k: nat)
    requires k <= |s|
    ensures s == s[..k] + s[k..]
  {
  }

  lemma IndentSound(line: string) returns (indent: string, r: string)
    ensures AllSpace(indent) && line == indent + r
    ensures MatchLog(line) == MatchDate(r)
  {
    var k := SpaceRun(line);
    indent, r := line[..k], line[k..];
    Cut(line, k);
  }

  lemma DateSound(r: string) returns (date: string, a: string)
    requires MatchDate(r).Some?
    ensures IsDate(date) && r == date + a
    ensures MatchDate(r) == MatchGap1(date, a)
  {
    date, a := r[..10], r[10..];
    Cut(r, 10);
  }

  lemma Gap1Sound(date: string, a: string) returns (gap1: string, b: string)
    requires MatchGap1(date, a).Some?
    ensures NonEmptySpace(gap1) && a == gap1 + b
    ensures MatchGap1(date, a) == MatchTime(date + gap1, b)
  {
    var k := SpaceRun(a);
    gap1, b := a[..k], a[k..];
    Cut(a, k);
  }

  lemma TimeSound(prefix: string, b: string) returns (time: string, c: string)
    requires MatchTime(prefix, b).Some?
    ensures IsTime(time) && b == time + c
    ensures MatchTime(prefix, b) == MatchGap2(prefix + time, c)
  {
    time, c := b[..8], b[8..];
    Cut(b, 8);
  }

  lemma Gap2Sound(datetime: string, c: string) returns (gap2: string, tail: string)
    requires MatchGap2(datetime, c).Some?
    ensures NonEmptySpace(gap2) && c == gap2 + tail
    ensures MatchGap2(datetime, c) == MatchFromLevel(datetime, tail)
  {
    var k := SpaceRun(c);
    gap2, tail := c[..k], c[k..];
    Cut(c, k);
  }

  /** The parts up to the level tag of a line that matches. */
  lemma HeaderSound(line: string) returns (indent: string, date: string, gap1: string, time: string, gap2: string, tail: string)
    requires MatchLog(line).Some?
    ensures AllSpace(indent) && IsDate(date) && NonEmptySpace(gap1) && IsTime(time) && NonEmptySpace(gap2)
    ensures line == indent + (date + (gap1 + (time + (gap2 + tail))))
    ensures MatchLog(line) == MatchFromLevel(date + gap1 + time, tail)
  {
    var r, a, b, c;
    indent, r := IndentSound(line);
    date, a := DateSound(r);
    gap1, b := Gap1Sound(date, a);
    time, c := TimeSound(date + gap1, b);
    gap2, tail := Gap2Sound(date + gap1 + time, c);
  }

  lemma TagSound(tail: string) returns (level: string, t: string)
    requires LevelTag(tail).Some?
    ensures KnownLevel(level) && tail == Tag(level) + t
    ensures LevelTag(tail) == Some((level, t))
  {
    if StartsWith(tail, "[INFO]") {
      level, t := "INFO", tail[6..];
      Cut(tail, 6);
    } else if StartsWith(tail, "[WARN]") {
      level, t := "WARN", tail[6..];
      Cut(tail, 6);
    } else {
      level, t := "ERROR", tail[7..];
      Cut(tail, 7);
    }
  }

  lemma MessageSound(t: string) returns (gap3: string, text: string, newline: bool)
    requires SpaceThenLine(DropFinalNewline(t))
    ensures NonEmptySpace(gap3) && text != [] && NoNewline(text)
    ensures t == gap3 + (text + NewlineIf(newline))
    ensures Strip(DropFinalNewline(t)) == Strip(text)
  {
    var body := DropFinalNewline(t);
    var k :| 1 <= k < |body| && AllSpace(body[..k]) && NoNewline(body[k..]);
    newline := NewlineSplit(t);
    gap3, text := body[..k], body[k..];
    assert body == gap3 + text by {
      Cut(body, k);
    }
    assert t == gap3 + (text + NewlineIf(newline)) by {
      assert t == (gap3 + text) + NewlineIf(newline);
    }
    assert Strip(body) == Strip(text) by {
      StripAfterSpace(gap3, text);
    }
  }

  /** The parts from the level tag on of a text that matches. */
  lemma TailSound(datetime: string, tail: string) returns (level: string, gap3: string, text: string, newline: bool)
    requires MatchFromLevel(datetime, tail).Some?
    ensures KnownLevel(level) && NonEmptySpace(gap3) && text != [] && NoNewline(text)
    ensures tail == Tag(level) + (gap3 + (text + NewlineIf(newline)))
    ensures MatchFromLevel(datetime, tail) == Some(LogMatch(datetime, level, Strip(text)))
  {
    var t;
    level, t := TagSound(tail);
    gap3, text, newline := MessageSound(t);
  }

  /**
   * A line whose first non-blank character is not a digit never matches;
   * in particular the bracketed `[date time] [LEVEL] message` layout is UNKNOWN.
   */
  lemma NonDigitStartNeverMatches(line: string)
    requires LStrip(line) == [] || !IsDigit(LStrip(line)[0])
    ensures MatchLog(line) == None
  {
    assert line[SpaceRun(line)..] == LStrip(line);
  }

  /** Every line that matches is a laid-out line with a known level. */
  lemma MatchSound(line: string)
    requires MatchLog(line).Some?
    ensures exists l :: (HeaderLayout(l) && KnownLevel(l.level) && Render(l) == line
      && MatchLog(line) == Some(LogMatch(l.date + l.gap1 + l.time, l.level, Strip(l.text))))
  {
    var indent, date, gap1, time, gap2, tail := HeaderSound(line);
    var level, gap3, text, newline := TailSound(date + gap1 + time, tail);
    var l := Layout(indent, date, gap1, time, gap2, level, gap3, text, newline);
    assert Tail(l) == tail;
    assert HeaderLayout(l);
  }

  // ---------------------------------------------------------------------------
  // parse_line and analyze_log
  // ---------------------------------------------------------------------------

  /** The dictionary `parse_line` returns. */
  datatype ParsedLine = ParsedLine(datetime: Option<string>, level: string, message: string)

  lemma UnknownIsNoLevel(level: string)
    requires KnownLevel(level)
    ensures level != "UNKNOWN"
  {
    assert |level| < 7;
  }

  /** `parse_line`: the groups of a match, or UNKNOWN with the stripped line. */
  function ParseLine(line: string): (p: ParsedLine)
    ensures p.datetime.Some? <==> p.level != "UNKNOWN"
    ensures p.level == "UNKNOWN" || KnownLevel(p.level)
    ensures p.datetime.None? ==> p.message == Strip(line)
  {
    match MatchLog(line)
    case Some(m) =>
      UnknownIsNoLevel(m.level);
      ParsedLine(Some(m.datetime), m.level, m.message)
    case None => ParsedLine(None, "UNKNOWN", Strip(line))
  }

  /** A parsed line has one of the four levels; a date-time exactly when the line matched. */
  lemma ParseLineLevel(line: string)
    ensures var p := ParseLine(line);
      && (KnownLevel(p.level) <==> MatchLog(line).Some?)
      && (p.datetime.Some? <==> MatchLog(line).Some?)
      && (MatchLog(line).None? ==> p.level == "UNKNOWN" && p.message == Strip(line))
  {
    if MatchLog(line).Some? {
      MatchSound(line);
    }
  }

  /** The level `parse_line` gives each line, in order. */
  function Levels(lines: seq<string>): (r: seq<string>)
    ensures |r| == |lines|
  {
    if lines == [] then [] else Levels(lines[..|lines| - 1]) + [ParseLine(lines[|lines| - 1]).level]
  }

  function Occurrences(xs: seq<string>, x: string): nat {
    if xs == [] then 0 else Occurrences(xs[..|xs| - 1], x) + (if xs[|xs| - 1] == x then 1 else 0)
  }

  /** The number of lines `parse_line` puts at `level`. */
  function CountLevel(lines: seq<string>, level: string): nat {
    Occurrences(Levels(lines), level)
  }

  predicate ReportLevel(x: string) {
    KnownLevel(x) || x == "UNKNOWN"
  }

  const Recommendations: seq<string> := [
    "檢查最近 30 分鐘內的系統日誌，確認是否有連線失敗或資源耗盡的跡象。",
    "如果是第三方 API，先確認其狀態頁面是否有異常。",
    "將 ERROR 訊息加到監控平台（如 Prometheus + Alertmanager）以即時通知。",
    "若持續高併發，考慮實行排隊或限流機制。"
  ]

  /**
   * The report: `error_ratio` is kept as the pair ERROR count / total, and
   * `recommendations` is present only when that ratio exceeds 0.10.
   */
  datatype Report = Report(
    totalLines: nat,
    counts: map<string, nat>,
    errorCount: nat,
    recommendations: Option<seq<string>>)

  /** The loop of `analyze_log`: the `Counter` of the levels `parse_line` gives. */
  method CountLevels(lines: seq<string>) returns (counts: map<string, nat>)
    ensures forall level :: Count0(counts, level) == CountLevel(lines, level)
    ensures forall level :: level in counts <==> CountLevel(lines, level) > 0
  {
    counts := map[];
    for n := 0 to |lines|
      invariant forall level :: Count0(counts, level) == CountLevel(lines[..n], level)
      invariant forall level :: level in counts <==> Count0(counts, level) > 0
    {
      var parsed := ParseLine(lines[n]);
      CountLevelStep(lines, n);
      counts := Bump(counts, parsed.level);
    }
    assert lines[..|lines|] == lines;
  }

  /** `analyze_log` over the lines of the file. */
  method AnalyzeLog(lines: seq<string>) returns (report: Report)
    ensures forall level :: Count0(report.counts, level) == CountLevel(lines, level)
    ensures forall level :: level in report.counts <==> CountLevel(lines, level) > 0
    ensures report.totalLines == |lines|
    ensures report.errorCount == CountLevel(lines, "ERROR")
    ensures report.recommendations.Some? <==> 10 * CountLevel(lines, "ERROR") > |lines|
    ensures report.recommendations.Some? ==> report.recommendations.value == Recommendations
  {
    var counts := CountLevels(lines);
    CounterTotal(lines, counts);
    CountAt(lines, counts, "ERROR");
    var total := Count0(counts, "INFO") + Count0(counts, "WARN") + Count0(counts, "ERROR") + Count0(counts, "UNKNOWN");
    var errors := Count0(counts, "ERROR");
    assert total == |lines| && errors == CountLevel(lines, "ERROR");
    var recommendations: Option<seq<string>> := None;
    if 10 * errors > total {
      recommendations := Some(Recommendations);
    }
    report := Report(total, counts, errors, recommendations);
  }

  lemma CountLevelStep(lines: seq<string>, n: nat)
    requires n < |lines|
    ensures forall level :: (CountLevel(lines[..n + 1], level)
      == CountLevel(lines[..n], level) + (if ParseLine(lines[n]).level == level then 1 else 0))
  {
    assert lines[..n + 1][..n] == lines[..n];
    assert Levels(lines[..n + 1]) == Levels(lines[..n]) + [ParseLine(lines[n]).level];
  }

  /** `parse_line` gives one of the four report levels to every line. */
  lemma {:induction false} LevelsAreReportLevels(lines: seq<string>)
    ensures forall i :: 0 <= i < |lines| ==> ReportLevel(Levels(lines)[i])
  {
    if lines != [] {
      LevelsAreReportLevels(lines[..|lines| - 1]);
      ParseLineLevel(lines[|lines| - 1]);
    }
  }

  lemma {:induction false} OccurrencesAddUp(xs: seq<string>)
    requires forall i :: 0 <= i < |xs| ==> ReportLevel(xs[i])
    ensures Occurrences(xs, "INFO") + Occurrences(xs, "WARN")
          + Occurrences(xs, "ERROR") + Occurrences(xs, "UNKNOWN") == |xs|
  {
    if xs != [] {
      OccurrencesAddUp(xs[..|xs| - 1]);
      assert ReportLevel(xs[|xs| - 1]);
    }
  }

  /** `sum(counts.values())` over the counter of the four levels. */
  lemma CounterTotal(lines: seq<string>, counts: map<string, nat>)
    requires forall level :: Count0(counts, level) == CountLevel(lines, level)
    ensures Count0(counts, "INFO") + Count0(counts, "WARN") + Count0(counts, "ERROR")
          + Count0(counts, "UNKNOWN") == |lines|
  {
    CountsAddUp(lines);
    CountAt(lines, counts, "INFO");
    CountAt(lines, counts, "WARN");
    CountAt(lines, counts, "ERROR");
    CountAt(lines, counts, "UNKNOWN");
  }

  lemma CountAt(lines: seq<string>, counts: map<string, nat>, level: string)
    requires forall level :: Count0(counts, level) == CountLevel(lines, level)
    ensures Count0(counts, level) == CountLevel(lines, level)
  {
  }

  /** Every line lands at exactly one of the four levels: the counts add up to the line count. */
  lemma CountsAddUp(lines: seq<string>)
    ensures CountLevel(lines, "INFO") + CountLevel(lines, "WARN")
          + CountLevel(lines, "ERROR") + CountLevel(lines, "UNKNOWN") == |lines|
  {
    LevelsAreReportLevels(lines);
    OccurrencesAddUp(Levels(lines));
  }
}
