/**
 * The scheduled health check: counts suspicious log lines by substring
 * tests, estimates the p95 latency of the `asr-small-v1` model, decides
 * which alert rules of the configuration fire, and lays out the report
 * mail. Reading the configuration and the log, and sending the mail, are
 * not part of this model; `lines` are the log's lines as handed in.
 */
module HealthCheck {
  import opened Wrappers
  import opened Text
  import opened Percentile

  // ---------------------------------------------------------------------------
  // analyze_log
  // ---------------------------------------------------------------------------

  /** The four substring-counted line kinds. */
  datatype LineKind = ErrorLine | Http5xxLine | GpuOomLine | WifiDisconnectLine

  predicate IsKind(line: string, k: LineKind) {
    match k
    case ErrorLine => Contains(line, " ERROR ")
    case Http5xxLine =>
      Contains(line, " NetService ")
      && (Contains(line, "http_500") || Contains(line, "http_503") || Contains(line, "http_504"))
    case GpuOomLine => Contains(line, "AIInference") && Contains(line, "gpu_oom")
    case WifiDisconnectLine => Contains(line, "NetService") && Contains(line, "wifi_disconnected")
  }

  /** The number of lines of kind `k`. */
  function CountKind(lines: seq<string>, k: LineKind): nat {
    if lines == [] then 0
    else CountKind(lines[..|lines| - 1], k) + (if IsKind(lines[|lines| - 1], k) then 1 else 0)
  }

  const LatencyMarker: string := "latency_ms="

  predicate IsAsrLine(line: string) {
    Contains(line, "AIInference") && Contains(line, "model=asr-small-v1") && Contains(line, LatencyMarker)
  }

  /**
   * The latency sample of a line: the digits that start the piece after the
   * first `latency_ms=`, when there are any.
   */
  function AsrSample(line: string): Option<int> {
    if IsAsrLine(line) then
      var parts := Split(line, LatencyMarker);
      if |parts| > 1 then
        var num := LeadingDigits(parts[1]);
        if num != "" then Some(DigitsValue(num)) else None
      else None
    else None
  }

  /** The samples of all lines, in order. */
  function AsrSamples(lines: seq<string>): seq<int> {
    if lines == [] then []
    else
      var samples := AsrSamples(lines[..|lines| - 1]);
      match AsrSample(lines[|lines| - 1])
      case Some(x) => samples + [x]
      case None => samples
  }

  /** The summary `analyze_log` returns. */
  datatype Summary = Summary(
    errorCount: nat,
    http5xx: nat,
    gpuOom: nat,
    wifiDisconnect: nat,
    asrP95: Option<int>,
    asrSamples: nat)

  /** The p95 of the samples: none without samples, the nearest-rank value otherwise. */
  function P95Of(samples: seq<int>): Option<int> {
    if samples == [] then None else Some(NearestRank(samples))
  }

  function SummaryOf(lines: seq<string>): Summary {
    var samples := AsrSamples(lines);
    Summary(
      CountKind(lines, ErrorLine),
      CountKind(lines, Http5xxLine),
      CountKind(lines, GpuOomLine),
      CountKind(lines, WifiDisconnectLine),
      P95Of(samples),
      |samples|)
  }

  /** `analyze_log`. */
  method AnalyzeLog(lines: seq<string>) returns (s: Summary)
    ensures s == SummaryOf(lines)
  {
    var errorCount, http5xx, gpuOom, wifiDisconnect := 0, 0, 0, 0;
    var asrLatencies: seq<int> := [];
    for n := 0 to |lines|
      invariant errorCount == CountKind(lines[..n], ErrorLine)
      invariant http5xx == CountKind(lines[..n], Http5xxLine)
      invariant gpuOom == CountKind(lines[..n], GpuOomLine)
      invariant wifiDisconnect == CountKind(lines[..n], WifiDisconnectLine)
      invariant asrLatencies == AsrSamples(lines[..n])
    {
      CountKindStep(lines, n);
      AsrSamplesStep(lines, n);
      var line := lines[n];
      if Contains(line, " ERROR ") {
        errorCount := errorCount + 1;
      }
      if Contains(line, " NetService ")
        && (Contains(line, "http_500") || Contains(line, "http_503") || Contains(line, "http_504"))
      {
        http5xx := http5xx + 1;
      }
      if Contains(line, "AIInference") && Contains(line, "gpu_oom") {
        gpuOom := gpuOom + 1;
      }
      if Contains(line, "NetService") && Contains(line, "wifi_disconnected") {
        wifiDisconnect := wifiDisconnect + 1;
      }
      var sample := ReadAsrSample(line);
      if sample.Some? {
        asrLatencies := asrLatencies + [sample.value];
      }
    }
    assert lines[..|lines|] == lines;
    var asrP95: Option<int> := None;
    if asrLatencies != [] {
      var sorted := SortAsc(asrLatencies);
      asrP95 := Some(sorted[NearestRankIndex(|sorted|)]);
    }
    s := Summary(errorCount, http5xx, gpuOom, wifiDisconnect, asrP95, |asrLatencies|);
  }

  /** The latency part of the loop body, with the character loop of the source. */
  method ReadAsrSample(line: string) returns (sample: Option<int>)
    ensures sample == AsrSample(line)
  {
    sample := None;
    if Contains(line, "AIInference") && Contains(line, "model=asr-small-v1") && Contains(line, LatencyMarker) {
      var parts := Split(line, LatencyMarker);
      if |parts| > 1 {
        var num := ScanLeadingDigits(parts[1]);
        if num != "" {
          sample := Some(DigitsValue(num));
        }
      }
    }
  }

  /** One more line adds one to the count of each kind it belongs to. */
  lemma CountKindStep(lines: seq<string>, n: nat)
    requires n < |lines|
    ensures forall k :: CountKind(lines[..n + 1], k)
                     == CountKind(lines[..n], k) + (if IsKind(lines[n], k) then 1 else 0)
  {
    assert lines[..n + 1][..n] == lines[..n];
  }

  /** One more line appends its sample, if it has one. */
  lemma AsrSamplesStep(lines: seq<string>, n: nat)
    requires n < |lines|
    ensures AsrSamples(lines[..n + 1])
         == AsrSamples(lines[..n]) + (match AsrSample(lines[n]) case Some(x) => [x] case None => [])
  {
    assert lines[..n + 1][..n] == lines[..n];
  }

  /** Every line counts at most once per kind, and counting is additive over concatenation. */
  lemma {:induction false} CountKindSplits(a: seq<string>, b: seq<string>, k: LineKind)
    ensures CountKind(a + b, k) == CountKind(a, k) + CountKind(b, k)
    ensures CountKind(b, k) <= |b|
  {
    if b == [] {
      assert a + b == a;
    } else {
      assert (a + b)[..|a + b| - 1] == a + b[..|b| - 1];
      CountKindSplits(a, b[..|b| - 1], k);
    }
  }

  /**
   * A sample is exactly the maximal run of digits right after the first
   * `latency_ms=` of an asr line; a line without a digit there gives none.
   */
  lemma AsrSampleAfterMarker(line: string)
    ensures IsAsrLine(line) ==> Find(line, LatencyMarker).Some?
    ensures IsAsrLine(line) ==>
      var digits := LeadingDigits(line[Find(line, LatencyMarker).value + |LatencyMarker|..]);
      AsrSample(line) == if digits == "" then None else Some(DigitsValue(digits))
    ensures !IsAsrLine(line) ==> AsrSample(line) == None
  {
    if IsAsrLine(line) {
      var j :| OccursAt(line, LatencyMarker, j);
      var i := Find(line, LatencyMarker).value;
      LeadingDigitsAfterFirst(line, LatencyMarker, i);
    }
  }

  /** Samples are never negative. */
  lemma {:induction false} AsrSamplesNonNegative(lines: seq<string>)
    ensures forall i :: 0 <= i < |AsrSamples(lines)| ==> AsrSamples(lines)[i] >= 0
  {
    if lines != [] {
      AsrSamplesNonNegative(lines[..|lines| - 1]);
    }
  }

  /**
   * `asr_p95` is absent exactly when there is no sample; otherwise it is one
   * of the samples, sitting at the nearest-rank position of the sorted list,
   * and `asr_samples` counts the samples.
   */
  lemma SummaryP95(lines: seq<string>)
    ensures SummaryOf(lines).asrP95.None? <==> AsrSamples(lines) == []
    ensures SummaryOf(lines).asrSamples == |AsrSamples(lines)|
    ensures AsrSamples(lines) != [] ==>
      var samples := AsrSamples(lines);
      var p := SummaryOf(lines).asrP95.value;
      && p in samples && p >= 0
      && CountLess(samples, p) <= NearestRankIndex(|samples|) < CountAtMost(samples, p)
  {
    var samples := AsrSamples(lines);
    if samples != [] {
      NearestRankIsRank(samples);
      AsrSamplesNonNegative(lines);
    }
  }

  // ---------------------------------------------------------------------------
  // check_abnormal
  // ---------------------------------------------------------------------------

  /**
   * One section under `alerts`: its `enabled` flag (as Python truthiness)
   * and its threshold key (`min_errors`, `min_5xx`, `min_events` or
   * `max_p95_ms`), if given.
   */
  datatype RuleSection = RuleSection(enabled: bool, threshold: Option<int>)

  /** The `alerts` part of the configuration: each section may be missing. */
  datatype AlertConfig = AlertConfig(
    errorCount: Option<RuleSection>,
    http5xx: Option<RuleSection>,
    gpuOom: Option<RuleSection>,
    wifiDisconnect: Option<RuleSection>,
    asrLatencyP95: Option<RuleSection>)

  datatype Rule = ErrorCountRule | Http5xxRule | GpuOomRule | WifiDisconnectRule | AsrP95Rule

  /** The order in which `check_abnormal` tries the rules. */
  const RuleOrder: seq<Rule> := [ErrorCountRule, Http5xxRule, GpuOomRule, WifiDisconnectRule, AsrP95Rule]

  /** The key a fired rule is reported under. */
  function RuleName(r: Rule): string {
    match r
    case ErrorCountRule => "error_count"
    case Http5xxRule => "http_5xx"
    case GpuOomRule => "gpu_oom"
    case WifiDisconnectRule => "wifi_disconnect"
    case AsrP95Rule => "asr_p95"
  }

  function Section(cfg: AlertConfig, r: Rule): Option<RuleSection> {
    match r
    case ErrorCountRule => cfg.errorCount
    case Http5xxRule => cfg.http5xx
    case GpuOomRule => cfg.gpuOom
    case WifiDisconnectRule => cfg.wifiDisconnect
    case AsrP95Rule => cfg.asrLatencyP95
  }

  /** The summary value a rule looks at and reports. */
  function Observed(s: Summary, r: Rule): int {
    match r
    case ErrorCountRule => s.errorCount
    case Http5xxRule => s.http5xx
    case GpuOomRule => s.gpuOom
    case WifiDisconnectRule => s.wifiDisconnect
    case AsrP95Rule => s.asrP95.GetOr(0)
  }

  /** A count rule fires when enabled and the count reaches the threshold, 1 by default. */
  predicate CountRuleFires(sec: Option<RuleSection>, value: int) {
    sec.Some? && sec.value.enabled && value >= sec.value.threshold.GetOr(1)
  }

  /** The latency rule fires when enabled and a p95 exists above `max_p95_ms`, 200 by default. */
  predicate AsrRuleFires(sec: Option<RuleSection>, p95: Option<int>) {
    sec.Some? && sec.value.enabled && p95.Some? && p95.value > sec.value.threshold.GetOr(200)
  }

  predicate Fires(s: Summary, cfg: AlertConfig, r: Rule) {
    if r == AsrP95Rule then AsrRuleFires(cfg.asrLatencyP95, s.asrP95)
    else CountRuleFires(Section(cfg, r), Observed(s, r))
  }

  /** The item a rule adds to `triggered`: its key and observed value, when it fires. */
  function Item(s: Summary, cfg: AlertConfig, r: Rule): seq<(string, int)> {
    if Fires(s, cfg, r) then [(RuleName(r), Observed(s, r))] else []
  }

  /** The `(key, value)` items of `triggered`, in insertion order, for the rules tried in `rules`. */
  function TriggeredBy(rules: seq<Rule>, s: Summary, cfg: AlertConfig): seq<(string, int)> {
    if rules == [] then [] else Item(s, cfg, rules[0]) + TriggeredBy(rules[1..], s, cfg)
  }

  /** `check_abnormal`. */
  method CheckAbnormal(s: Summary, cfg: AlertConfig) returns (triggered: seq<(string, int)>)
    ensures triggered == TriggeredBy(RuleOrder, s, cfg)
  {
    triggered := [];
    var ecfg := cfg.errorCount;
    if ecfg.Some? && ecfg.value.enabled && s.errorCount >= ecfg.value.threshold.GetOr(1) {
      triggered := triggered + [("error_count", s.errorCount as int)];
    }
    assert triggered == Item(s, cfg, ErrorCountRule);
    var hcfg := cfg.http5xx;
    if hcfg.Some? && hcfg.value.enabled && s.http5xx >= hcfg.value.threshold.GetOr(1) {
      triggered := triggered + [("http_5xx", s.http5xx as int)];
    }
    assert triggered == Item(s, cfg, ErrorCountRule) + Item(s, cfg, Http5xxRule);
    var gcfg := cfg.gpuOom;
    if gcfg.Some? && gcfg.value.enabled && s.gpuOom >= gcfg.value.threshold.GetOr(1) {
      triggered := triggered + [("gpu_oom", s.gpuOom as int)];
    }
    assert triggered == Item(s, cfg, ErrorCountRule) + Item(s, cfg, Http5xxRule) + Item(s, cfg, GpuOomRule);
    var wcfg := cfg.wifiDisconnect;
    if wcfg.Some? && wcfg.value.enabled && s.wifiDisconnect >= wcfg.value.threshold.GetOr(1) {
      triggered := triggered + [("wifi_disconnect", s.wifiDisconnect as int)];
    }
    assert triggered == Item(s, cfg, ErrorCountRule) + Item(s, cfg, Http5xxRule) + Item(s, cfg, GpuOomRule)
      + Item(s, cfg, WifiDisconnectRule);
    var acfg := cfg.asrLatencyP95;
    if acfg.Some? && acfg.value.enabled && s.asrP95.Some? {
      if s.asrP95.value > acfg.value.threshold.GetOr(200) {
        triggered := triggered + [("asr_p95", s.asrP95.value)];
      }
    }
    assert triggered == Item(s, cfg, ErrorCountRule) + Item(s, cfg, Http5xxRule) + Item(s, cfg, GpuOomRule)
      + Item(s, cfg, WifiDisconnectRule) + Item(s, cfg, AsrP95Rule);
    TriggeredUnfolds(s, cfg);
  }

  lemma TriggeredUnfolds(s: Summary, cfg: AlertConfig)
    ensures TriggeredBy(RuleOrder, s, cfg)
         == Item(s, cfg, ErrorCountRule) + Item(s, cfg, Http5xxRule) + Item(s, cfg, GpuOomRule)
          + Item(s, cfg, WifiDisconnectRule) + Item(s, cfg, AsrP95Rule)
  {
    var ie, ih, ig := Item(s, cfg, ErrorCountRule), Item(s, cfg, Http5xxRule), Item(s, cfg, GpuOomRule);
    var iw, ia := Item(s, cfg, WifiDisconnectRule), Item(s, cfg, AsrP95Rule);
    var ra := [AsrP95Rule];
    var rw := [WifiDisconnectRule] + ra;
    var rg := [GpuOomRule] + rw;
    var rh := [Http5xxRule] + rg;
    assert RuleOrder == [ErrorCountRule] + rh;
    TriggeredCons(AsrP95Rule, [], s, cfg);
    assert ra == [AsrP95Rule] + [];
    TriggeredCons(WifiDisconnectRule, ra, s, cfg);
    TriggeredCons(GpuOomRule, rw, s, cfg);
    TriggeredCons(Http5xxRule, rg, s, cfg);
    TriggeredCons(ErrorCountRule, rh, s, cfg);
    assert TriggeredBy(ra, s, cfg) == ia;
    assert TriggeredBy(RuleOrder, s, cfg) == ie + (ih + (ig + (iw + ia)));
    ConcatAssoc(ie, ih, ig + (iw + ia));
    ConcatAssoc(ie + ih, ig, iw + ia);
    ConcatAssoc(ie + ih + ig, iw, ia);
  }

  lemma ConcatAssoc(a: seq<(string, int)>, b: seq<(string, int)>, c: seq<(string, int)>)
    ensures a + (b + c) == a + b + c
  {
  }

  lemma TriggeredCons(r: Rule, rest: seq<Rule>, s: Summary, cfg: AlertConfig)
    ensures TriggeredBy([r] + rest, s, cfg) == Item(s, cfg, r) + TriggeredBy(rest, s, cfg)
  {
    assert ([r] + rest)[1..] == rest;
  }

  /**
   * `triggered` holds exactly the fired rules, each under its own key with
   * its observed summary value.
   */
  lemma {:induction false} TriggeredEntries(rules: seq<Rule>, s: Summary, cfg: AlertConfig)
    ensures forall p :: p in TriggeredBy(rules, s, cfg) ==>
      exists r :: r in rules && Fires(s, cfg, r) && p == (RuleName(r), Observed(s, r))
    ensures forall r :: r in rules && Fires(s, cfg, r) ==> (RuleName(r), Observed(s, r)) in TriggeredBy(rules, s, cfg)
  {
    if rules != [] {
      TriggeredEntries(rules[1..], s, cfg);
      forall r | r in rules && Fires(s, cfg, r) ensures (RuleName(r), Observed(s, r)) in TriggeredBy(rules, s, cfg) {
        if r != rules[0] {
          assert r in rules[1..];
        }
      }
    }
  }

  /** The position of a rule in `RuleOrder`. */
  function Rank(r: Rule): nat {
    match r
    case ErrorCountRule => 0
    case Http5xxRule => 1
    case GpuOomRule => 2
    case WifiDisconnectRule => 3
    case AsrP95Rule => 4
  }

  /** The position of a key among the rule names, if it is one. */
  function KeyRank(key: string): int {
    if key == "error_count" then 0
    else if key == "http_5xx" then 1
    else if key == "gpu_oom" then 2
    else if key == "wifi_disconnect" then 3
    else if key == "asr_p95" then 4
    else -1
  }

  /** The keys of `t` are rule names of rank at least `k`, in strictly increasing rank. */
  predicate RanksFrom(t: seq<(string, int)>, k: nat) {
    && (forall i :: 0 <= i < |t| ==> k <= KeyRank(t[i].0))
    && (forall i, j :: 0 <= i < j < |t| ==> KeyRank(t[i].0) < KeyRank(t[j].0))
  }

  /** The items of `triggered` come in rule order, so no key appears twice. */
  lemma TriggeredInRuleOrder(s: Summary, cfg: AlertConfig)
    ensures var t := TriggeredBy(RuleOrder, s, cfg);
      forall i, j :: 0 <= i < j < |t| ==> 0 <= KeyRank(t[i].0) < KeyRank(t[j].0)
  {
    SuffixInRuleOrder(s, cfg, 0);
    assert RuleOrder[0..] == RuleOrder;
  }

  lemma {:induction false} SuffixInRuleOrder(s: Summary, cfg: AlertConfig, k: nat)
    requires k <= |RuleOrder|
    ensures RanksFrom(TriggeredBy(RuleOrder[k..], s, cfg), k)
    decreases |RuleOrder| - k
  {
    if k < |RuleOrder| {
      var r := RuleOrder[k];
      assert KeyRank(RuleName(r)) == k;
      assert RuleOrder[k..][1..] == RuleOrder[k + 1..];
      SuffixInRuleOrder(s, cfg, k + 1);
      var rest := TriggeredBy(RuleOrder[k + 1..], s, cfg);
      assert RanksFrom(rest, k + 1);
      var t := TriggeredBy(RuleOrder[k..], s, cfg);
      assert t == Item(s, cfg, r) + rest;
      if Fires(s, cfg, r) {
        assert t == [(RuleName(r), Observed(s, r))] + rest;
        assert forall i :: 1 <= i < |t| ==> t[i] == rest[i - 1];
      } else {
        assert t == rest;
      }
    }
  }

  /** The latency rule's comparison is strict: a p95 equal to the threshold does not fire. */
  lemma AsrThresholdIsStrict(sec: RuleSection, p95: int)
    requires sec.enabled
    ensures !AsrRuleFires(Some(sec), Some(sec.threshold.GetOr(200)))
    ensures AsrRuleFires(Some(sec), Some(sec.threshold.GetOr(200) + 1))
    ensures AsrRuleFires(Some(RuleSection(true, None)), Some(p95)) <==> p95 > 200
  {
  }

  /** A missing or disabled section never fires; an enabled count rule without threshold fires from 1 on. */
  lemma RuleDefaults(s: Summary, cfg: AlertConfig, r: Rule)
    ensures (Section(cfg, r).None? || !Section(cfg, r).value.enabled) ==> !Fires(s, cfg, r)
    ensures r != AsrP95Rule && Section(cfg, r) == Some(RuleSection(true, None)) ==>
      (Fires(s, cfg, r) <==> Observed(s, r) >= 1)
  {
  }

  // ---------------------------------------------------------------------------
  // build_email_body
  // ---------------------------------------------------------------------------

  const NoAlertLine: string := "【目前未觸發任何告警條件】"
  const AlertHeaderLine: string := "【觸發告警的條件】"

  /** `f"- {k}: {v}"`. */
  function TriggeredLine(item: (string, int)): string {
    "- " + item.0 + ": " + IntToString(item.1)
  }

  function TriggeredLines(items: seq<(string, int)>): (r: seq<string>)
    ensures |r| == |items|
    ensures forall i :: 0 <= i < |items| ==> r[i] == TriggeredLine(items[i])
  {
    if items == [] then [] else TriggeredLines(items[..|items| - 1]) + [TriggeredLine(items[|items| - 1])]
  }

  /** The overall-figures block at the top of the mail. */
  function SummaryLines(s: Summary): (r: seq<string>)
    ensures |r| == 9
  {
    [ "瑞昱行動 AI 服務日常 log 健康檢查結果：",
      "",
      "【整體指標】",
      "- ERROR 行數：" + NatToString(s.errorCount),
      "- HTTP 5xx 次數（500/503/504）：" + NatToString(s.http5xx),
      "- GPU OOM 次數：" + NatToString(s.gpuOom),
      "- WiFi 斷線次數：" + NatToString(s.wifiDisconnect),
      if s.asrP95.Some? then
        "- asr-small-v1 延遲 P95：" + IntToString(s.asrP95.value) + " ms（樣本數 " + NatToString(s.asrSamples) + "）"
      else
        "- asr-small-v1：本次無有效 latency 資料",
      "" ]
  }

  /** The alert block: the header and one line per fired rule, or the single no-alert line. */
  function AlertLines(triggered: seq<(string, int)>): seq<string> {
    if triggered != [] then [AlertHeaderLine] + TriggeredLines(triggered) else [NoAlertLine]
  }

  const AdviceLines: seq<string> := [
    "",
    "建議後續處理：",
    "- 請登入監控平台確認是否有對應的 spike 或異常 pattern",
    "- 若 GPU OOM / 5xx 過多，可考慮暫時降載或擴充資源",
    "- 如需調整門檻，請修改 alert_config.yaml 後重新部署"
  ]

  function EmailLines(s: Summary, triggered: seq<(string, int)>): seq<string> {
    SummaryLines(s) + AlertLines(triggered) + AdviceLines
  }

  /** `build_email_body`: the lines, joined by newlines. */
  method BuildEmailBody(s: Summary, triggered: seq<(string, int)>) returns (body: string)
    ensures body == JoinWith(EmailLines(s, triggered), "\n")
  {
    var lines := SummaryLines(s);
    lines := AppendAlertBlock(lines, triggered);
    lines := lines + AdviceLines;
    body := JoinWith(lines, "\n");
  }

  /** The `if triggered: ... else: ...` part of `build_email_body`. */
  method AppendAlertBlock(lines: seq<string>, triggered: seq<(string, int)>) returns (out: seq<string>)
    ensures out == lines + AlertLines(triggered)
  {
    if triggered != [] {
      out := lines + [AlertHeaderLine];
      out := AppendTriggeredLines(out, triggered);
    } else {
      out := lines + [NoAlertLine];
    }
  }

  /** The `for k, v in triggered.items()` loop: one `k: v` line per item, in order. */
  method AppendTriggeredLines(lines: seq<string>, triggered: seq<(string, int)>) returns (out: seq<string>)
    ensures out == lines + TriggeredLines(triggered)
  {
    out := lines;
    for i := 0 to |triggered|
      invariant out == lines + TriggeredLines(triggered[..i])
    {
      assert triggered[..i + 1][..i] == triggered[..i];
      out := out + [TriggeredLine(triggered[i])];
    }
    assert triggered[..|triggered|] == triggered;
  }

  lemma MiddleOfConcat(h: seq<string>, x: string, m: seq<string>, t: seq<string>)
    ensures var l := h + ([x] + m) + t;
      l[|h|] == x && l[|h| + 1..|h| + 1 + |m|] == m
  {
    var l := h + ([x] + m) + t;
    assert l[|h| + 1..|h| + 1 + |m|] == m by {
      forall i | 0 <= i < |m| ensures l[|h| + 1 + i] == m[i] {
        assert l[|h| + 1 + i] == ([x] + m)[1 + i];
      }
    }
  }

  lemma MarkersNotInSummary(s: Summary)
    ensures NoAlertLine !in SummaryLines(s) && AlertHeaderLine !in SummaryLines(s)
  {
    var lines := SummaryLines(s);
    forall i | 3 <= i < 8 ensures lines[i][0] == '-' {
    }
    assert NoAlertLine[0] == '【' && AlertHeaderLine[0] == '【';
  }

  lemma MarkersNotInAdvice()
    ensures NoAlertLine !in AdviceLines && AlertHeaderLine !in AdviceLines
  {
  }

  lemma MarkersNotInTriggered(items: seq<(string, int)>)
    ensures NoAlertLine !in TriggeredLines(items) && AlertHeaderLine !in TriggeredLines(items)
  {
    var lines := TriggeredLines(items);
    forall i | 0 <= i < |lines| ensures lines[i][0] == '-' {
      assert lines[i] == "- " + items[i].0 + ": " + IntToString(items[i].1);
    }
    assert NoAlertLine[0] == '【' && AlertHeaderLine[0] == '【';
  }

  /**
   * The alert block of the mail: with nothing triggered it is the single
   * no-alert line, right after the nine lines of figures, and the alert
   * header appears nowhere.
   */
  lemma NoAlertBlock(s: Summary)
    ensures EmailLines(s, [])[9] == NoAlertLine
    ensures AlertHeaderLine !in EmailLines(s, [])
  {
    MarkersNotInSummary(s);
    MarkersNotInAdvice();
    assert AlertLines([]) == [NoAlertLine];
  }

  /**
   * With something triggered the alert header follows the figures and one
   * `k: v` line per item of `triggered` follows, in order.
   */
  lemma TriggeredAlertBlock(s: Summary, triggered: seq<(string, int)>)
    requires triggered != []
    ensures EmailLines(s, triggered)[9] == AlertHeaderLine
    ensures EmailLines(s, triggered)[10..10 + |triggered|] == TriggeredLines(triggered)
  {
    MiddleOfConcat(SummaryLines(s), AlertHeaderLine, TriggeredLines(triggered), AdviceLines);
  }

  /** With something triggered the no-alert line appears nowhere in the mail. */
  lemma TriggeredHasNoNoAlertLine(s: Summary, triggered: seq<(string, int)>)
    requires triggered != []
    ensures NoAlertLine !in EmailLines(s, triggered)
  {
    MarkersNotInSummary(s);
    MarkersNotInAdvice();
    AlertBlockBetween(SummaryLines(s), triggered, AdviceLines);
  }

  lemma AlertBlockBetween(h: seq<string>, triggered: seq<(string, int)>, t: seq<string>)
    requires triggered != []
    requires NoAlertLine !in h && NoAlertLine !in t
    ensures var lines := h + AlertLines(triggered) + t;
      && lines[|h|] == AlertHeaderLine
      && lines[|h| + 1..|h| + 1 + |triggered|] == TriggeredLines(triggered)
      && NoAlertLine !in lines
  {
    var tl := TriggeredLines(triggered);
    MarkersNotInTriggered(triggered);
    assert AlertLines(triggered) == [AlertHeaderLine] + tl;
    assert NoAlertLine != AlertHeaderLine;
    MiddleOfConcat(h, AlertHeaderLine, tl, t);
  }
}
