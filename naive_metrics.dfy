/**
 * The hand-written metrics pass: over the stripped, non-empty lines of a
 * log it counts the lines holding " INFO ", " WARN " and " ERROR " (three
 * independent substring tests, so a line can count for several levels) and
 * collects the integer that follows the first `latency_ms=` on lines that
 * also mention `AIInference`, reading digits one character at a time.
 */
module NaiveMetrics {
  import opened Wrappers
  import opened Text

  const InfoMarker: string := " INFO "
  const WarnMarker: string := " WARN "
  const ErrorMarker: string := " ERROR "
  const InferenceMarker: string := "AIInference"
  const LatencyMarker: string := "latency_ms="

  /** A line after `strip()`, or None when `if not line: continue` skips it. */
  function Kept(line: string): Option<string> {
    var s := Strip(line);
    if s == "" then None else Some(s)
  }

  /** The latency sample of one stripped line. */
  function LatencyOf(s: string): Option<nat> {
    if Contains(s, InferenceMarker) && Contains(s, LatencyMarker) then
      var parts := Split(s, LatencyMarker);
      if |parts| > 1 then
        var num := LeadingDigits(parts[1]);
        if num != "" then Some(DigitsValue(num)) else None
      else None
    else None
  }

  /** The number of kept lines that contain `marker`. */
  function CountWith(lines: seq<string>, marker: string): nat {
    if lines == [] then 0
    else
      CountWith(lines[..|lines| - 1], marker)
      + (match Kept(lines[|lines| - 1])
         case Some(s) => if Contains(s, marker) then 1 else 0
         case None => 0)
  }

  /** The latency samples of the kept lines, in order. */
  function Latencies(lines: seq<string>): seq<nat> {
    if lines == [] then []
    else
      var before := Latencies(lines[..|lines| - 1]);
      match Kept(lines[|lines| - 1])
      case None => before
      case Some(s) =>
        match LatencyOf(s)
        case Some(v) => before + [v]
        case None => before
  }

  function Sum(xs: seq<nat>): nat {
    if xs == [] then 0 else Sum(xs[..|xs| - 1]) + xs[|xs| - 1]
  }

  /** The average latency as the exact pair (sum, count); None without samples. */
  function Average(xs: seq<nat>): (r: Option<(nat, nat)>)
    ensures r.Some? <==> xs != []
    ensures r.Some? ==> r.value.1 == |xs| > 0 && r.value.0 == Sum(xs)
  {
    if xs == [] then None else Some((Sum(xs), |xs|))
  }

  /** What `main` reports. */
  datatype Metrics = Metrics(info: nat, warn: nat, error: nat, latencies: seq<nat>, average: Option<(nat, nat)>)

  /** The latency of one stripped line, with the character loop of the source. */
  method ReadLatency(s: string) returns (sample: Option<nat>)
    ensures sample == LatencyOf(s)
  {
    sample := None;
    if Contains(s, InferenceMarker) && Contains(s, LatencyMarker) {
      var parts := Split(s, LatencyMarker);
      if |parts| > 1 {
        var right := parts[1];
        var num := ScanLeadingDigits(right);
        if num != "" {
          sample := Some(DigitsValue(num));
        }
      }
    }
  }

  /** The loop of `main` over the lines of the file. */
  method CollectMetrics(lines: seq<string>) returns (m: Metrics)
    ensures m.info == CountWith(lines, InfoMarker)
    ensures m.warn == CountWith(lines, WarnMarker)
    ensures m.error == CountWith(lines, ErrorMarker)
    ensures m.latencies == Latencies(lines)
    ensures m.average == Average(Latencies(lines))
  {
    var countInfo, countWarn, countError := 0, 0, 0;
    var latencies: seq<nat> := [];
    for n := 0 to |lines|
      invariant countInfo == CountWith(lines[..n], InfoMarker)
      invariant countWarn == CountWith(lines[..n], WarnMarker)
      invariant countError == CountWith(lines[..n], ErrorMarker)
      invariant latencies == Latencies(lines[..n])
    {
      CountStep(lines, n, InfoMarker);
      CountStep(lines, n, WarnMarker);
      CountStep(lines, n, ErrorMarker);
      LatencyStep(lines, n);
      var line := Strip(lines[n]);
      if line == "" {
        continue;
      }
      if Contains(line, InfoMarker) {
        countInfo := countInfo + 1;
      }
      if Contains(line, WarnMarker) {
        countWarn := countWarn + 1;
      }
      if Contains(line, ErrorMarker) {
        countError := countError + 1;
      }
      var sample := ReadLatency(line);
      if sample.Some? {
        latencies := latencies + [sample.value];
      }
    }
    assert lines[..|lines|] == lines;
    m := Metrics(countInfo, countWarn, countError, latencies, Average(latencies));
  }

  /** One more line adds one to a counter exactly when it is kept and holds the counter's marker. */
  lemma CountStep(lines: seq<string>, n: nat, marker: string)
    requires n < |lines|
    ensures CountWith(lines[..n + 1], marker)
         == CountWith(lines[..n], marker) + (if Strip(lines[n]) != "" && Contains(Strip(lines[n]), marker) then 1 else 0)
  {
    assert lines[..n + 1] == lines[..n] + [lines[n]];
    if Strip(lines[n]) == "" {
      BlankLineIgnored(lines[..n], lines[n], marker);
    } else {
      KeptLineCounts(lines[..n], lines[n], marker);
    }
  }

  /** One more line adds its sample, if it is kept and has one. */
  lemma LatencyStep(lines: seq<string>, n: nat)
    requires n < |lines|
    ensures Strip(lines[n]) == "" ==> Latencies(lines[..n + 1]) == Latencies(lines[..n])
    ensures Strip(lines[n]) != "" ==>
      Latencies(lines[..n + 1])
      == Latencies(lines[..n]) + (match LatencyOf(Strip(lines[n])) case Some(v) => [v] case None => [])
  {
    assert lines[..n + 1] == lines[..n] + [lines[n]];
    if Strip(lines[n]) == "" {
      BlankLineIgnored(lines[..n], lines[n], InfoMarker);
    } else {
      KeptLineSample(lines[..n], lines[n]);
    }
  }

  // ---------------------------------------------------------------------------
  // Lemmas
  // ---------------------------------------------------------------------------

  /** A line that is blank after `strip()` changes no counter and adds no sample. */
  lemma BlankLineIgnored(lines: seq<string>, line: string, marker: string)
    requires Strip(line) == ""
    ensures CountWith(lines + [line], marker) == CountWith(lines, marker)
    ensures Latencies(lines + [line]) == Latencies(lines)
  {
    assert (lines + [line])[..|lines|] == lines;
  }

  /** A kept line counts for every marker it contains, independently of the others. */
  lemma KeptLineCounts(lines: seq<string>, line: string, marker: string)
    requires Strip(line) != ""
    ensures CountWith(lines + [line], marker)
         == CountWith(lines, marker) + (if Contains(Strip(line), marker) then 1 else 0)
  {
    assert (lines + [line])[..|lines|] == lines;
  }

  /** No counter exceeds the number of lines. */
  lemma {:induction false} CountAtMostLines(lines: seq<string>, marker: string)
    ensures CountWith(lines, marker) <= |lines|
  {
    if lines != [] {
      CountAtMostLines(lines[..|lines| - 1], marker);
    }
  }

  /** There is at most one sample per line. */
  lemma {:induction false} LatenciesAtMostLines(lines: seq<string>)
    ensures |Latencies(lines)| <= |lines|
  {
    if lines != [] {
      LatenciesAtMostLines(lines[..|lines| - 1]);
    }
  }

  /**
   * A kept line holding both " INFO " and " ERROR " but not " WARN " adds one
   * to the INFO and to the ERROR counter and leaves the WARN counter alone:
   * the three tests are independent, not an if/elif chain.
   */
  lemma InfoAndErrorBothCount(lines: seq<string>, line: string)
    requires Contains(Strip(line), InfoMarker) && Contains(Strip(line), ErrorMarker)
    requires !Contains(Strip(line), WarnMarker)
    ensures CountWith(lines + [line], InfoMarker) == CountWith(lines, InfoMarker) + 1
    ensures CountWith(lines + [line], ErrorMarker) == CountWith(lines, ErrorMarker) + 1
    ensures CountWith(lines + [line], WarnMarker) == CountWith(lines, WarnMarker)
  {
    KeptLineCounts(lines, line, InfoMarker);
    KeptLineCounts(lines, line, ErrorMarker);
    KeptLineCounts(lines, line, WarnMarker);
  }

  /** Only lines mentioning both `AIInference` and `latency_ms=` give a sample. */
  lemma SampleNeedsBothMarkers(s: string)
    requires LatencyOf(s).Some?
    ensures Contains(s, InferenceMarker) && Contains(s, LatencyMarker)
  {
  }

  /**
   * The sample of an `AIInference` line is the value of the digits right after
   * the first `latency_ms=`; a line without such digits gives none.
   */
  lemma SampleIsDigitsAfterMarker(s: string, i: nat)
    requires Contains(s, InferenceMarker)
    requires Find(s, LatencyMarker) == Some(i)
    ensures var digits := LeadingDigits(s[i + |LatencyMarker|..]);
      LatencyOf(s) == if digits == "" then None else Some(DigitsValue(digits))
  {
    assert OccursAt(s, LatencyMarker, i);
    LeadingDigitsAfterFirst(s, LatencyMarker, i);
  }

  /** The samples are collected in line order: a kept line adds its sample at the end. */
  lemma KeptLineSample(lines: seq<string>, line: string)
    requires Strip(line) != ""
    ensures Latencies(lines + [line])
         == Latencies(lines) + (match LatencyOf(Strip(line)) case Some(v) => [v] case None => [])
  {
    assert (lines + [line])[..|lines|] == lines;
  }
}
