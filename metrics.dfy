/**
 * The metrics pass over JSON-Lines log entries: per-model latency samples,
 * per-user login counters, HTTP status buckets and anomaly counters, and
 * the `model_stats` / `user_stats` tables derived from them.
 *
 * Entries arrive already decoded: `source` is `entry.get('source')` and
 * `fields` is `entry.get('fields', {})`, so a record without `fields`
 * carries the empty map.
 */
module Metrics {
  import opened Wrappers
  import opened Text
  import opened Percentile
  import opened Counters

  datatype Entry = Entry(source: Option<string>, fields: map<string, string>)

  // ---------------------------------------------------------------------------
  // parse_int and compute_p95
  // ---------------------------------------------------------------------------

  /**
   * `parse_int(value)`: `int(value)` where it succeeds, the default 0 where
   * `int` raises. `int` accepts surrounding whitespace and one sign.
   */
  function ParseInt(value: string): (r: int)
    ensures r != 0 ==> ReadsAs(value, r)
  {
    NonZeroIsPaddedNumeral(value);
    ParseNumeral(Strip(value))
  }

  /** `value` is whitespace `ws1`, an optional sign, the digits `d` and whitespace `ws2`. */
  predicate PaddedNumeral(value: string, ws1: string, sign: string, d: string, ws2: string) {
    && AllSpace(ws1) && AllSpace(ws2)
    && (sign == "" || sign == "+" || sign == "-")
    && IsDigitString(d)
    && value == ws1 + sign + d + ws2
  }

  /** `value` is a padded numeral that spells `r`. */
  ghost predicate ReadsAs(value: string, r: int) {
    exists ws1, sign, d, ws2 :: PaddedNumeral(value, ws1, sign, d, ws2) && r == SignedDigits(sign, d)
  }

  /** The number a sign and digits spell. */
  function SignedDigits(sign: string, d: string): int
    requires AllDigits(d)
  {
    if sign == "-" then -(DigitsValue(d) as int) else DigitsValue(d)
  }

  /** A non-zero numeral read from `strip(value)` comes from a padded numeral. */
  lemma NonZeroIsPaddedNumeral(value: string)
    ensures var r := ParseNumeral(Strip(value));
      r != 0 ==> ReadsAs(value, r)
  {
    var t := Strip(value);
    if ParseNumeral(t) != 0 {
      var ws1, ws2 := StripPadding(value);
      var sign, d := NumeralParts(t);
      ConcatRegroup(ws1, sign, d, ws2);
      assert PaddedNumeral(value, ws1, sign, d, ws2) && ParseNumeral(t) == SignedDigits(sign, d);
      assert ReadsAs(value, ParseNumeral(t));
    }
  }

  lemma ConcatRegroup(a: string, b: string, c: string, e: string)
    ensures a + (b + c) + e == a + b + c + e
  {
  }

  /** What `strip()` drops is whitespace on either side. */
  lemma StripPadding(value: string) returns (ws1: string, ws2: string)
    ensures AllSpace(ws1) && AllSpace(ws2) && value == ws1 + Strip(value) + ws2
  {
    var l := LStrip(value);
    ws1 := LStripPadding(value);
    ws2 := RStripPadding(l);
    calc {
      value;
      ws1 + l;
      ws1 + (RStrip(l) + ws2);
      { ConcatRegroup(ws1, RStrip(l), ws2, []); }
      ws1 + Strip(value) + ws2;
    }
  }

  lemma LStripPadding(s: string) returns (ws: string)
    ensures AllSpace(ws) && s == ws + LStrip(s)
  {
    var r := LStrip(s);
    ws := s[..|s| - |r|];
  }

  lemma RStripPadding(s: string) returns (ws: string)
    ensures AllSpace(ws) && s == RStrip(s) + ws
  {
    var r := RStrip(s);
    ws := s[|r|..];
  }

  /** A text read as a non-zero numeral is an optional sign and digits. */
  lemma NumeralParts(t: string) returns (sign: string, d: string)
    requires ParseNumeral(t) != 0
    ensures (sign == "" || sign == "+" || sign == "-") && IsDigitString(d)
    ensures t == sign + d && ParseNumeral(t) == SignedDigits(sign, d)
  {
    if IsDigitString(t) {
      sign, d := "", t;
    } else {
      sign, d := t[..1], t[1..];
    }
  }

  /** `int` on text without surrounding whitespace: optional sign, then digits. */
  function ParseNumeral(t: string): int {
    if IsDigitString(t) then DigitsValue(t)
    else if |t| >= 2 && (t[0] == '+' || t[0] == '-') && IsDigitString(t[1..]) then
      if t[0] == '-' then 0 - DigitsValue(t[1..]) else DigitsValue(t[1..])
    else 0
  }

  /**
   * `compute_p95(values)`: 0 for an empty list, otherwise the nearest-rank
   * 95th percentile of the samples.
   */
  function ComputeP95(values: seq<int>): (r: int)
    ensures values == [] ==> r == 0
    ensures values != [] ==> r in values
    ensures values != [] ==>
      CountLess(values, r) <= NearestRankIndex(|values|) < CountAtMost(values, r)
  {
    if values == [] then 0
    else
      NearestRankIsRank(values);
      NearestRank(values)
  }

  // ---------------------------------------------------------------------------
  // Containers
  // ---------------------------------------------------------------------------

  /** `model_latencies[model]` of the `defaultdict(list)`. */
  function Samples(lat: map<string, seq<int>>, model: string): seq<int> {
    if model in lat then lat[model] else []
  }

  /** `model_latencies[model].append(x)`. */
  function AppendSample(lat: map<string, seq<int>>, model: string, x: int): map<string, seq<int>> {
    lat[model := Samples(lat, model) + [x]]
  }

  function Get(fields: map<string, string>, k: string): Option<string> {
    if k in fields then Some(fields[k]) else None
  }

  /** Python truthiness of `fields.get(k)`: present and non-empty. */
  predicate Truthy(o: Option<string>) {
    o.Some? && o.value != ""
  }

  /** Python's `a or b`. */
  function Or(a: Option<string>, b: Option<string>): Option<string> {
    if Truthy(a) then a else b
  }

  // ---------------------------------------------------------------------------
  // The per-entry rules, stated declaratively
  // ---------------------------------------------------------------------------

  /** The model an AIInference entry reports on, if it names one. */
  function ModelOf(fields: map<string, string>): Option<string> {
    if Truthy(Get(fields, "model")) then Get(fields, "model") else None
  }

  /** `parse_int(fields['latency_ms'])` when the key is present. */
  function LatencySample(fields: map<string, string>): Option<int> {
    if "latency_ms" in fields then Some(ParseInt(fields["latency_ms"])) else None
  }

  /** `parse_int(fields['avg_latency_ms'])` of a `health_check` event that carries it. */
  function HealthSample(fields: map<string, string>): Option<int> {
    if Get(fields, "event") == Some("health_check") && "avg_latency_ms" in fields
    then Some(ParseInt(fields["avg_latency_ms"])) else None
  }

  /**
   * Latency samples an AIInference entry contributes: `latency_ms`, then
   * `avg_latency_ms` of a health check.
   */
  function AiSamples(fields: map<string, string>): (r: seq<int>)
    ensures |r| == (if "latency_ms" in fields then 1 else 0)
                 + (if Get(fields, "event") == Some("health_check") && "avg_latency_ms" in fields then 1 else 0)
  {
    OptSeq(LatencySample(fields)) + OptSeq(HealthSample(fields))
  }

  /** The user a MobileApp entry is about: a non-empty `user_id`, else a non-empty `user`. */
  function ResolveUser(fields: map<string, string>): Option<string> {
    if Truthy(Get(fields, "user_id")) then Get(fields, "user_id")
    else if Truthy(Get(fields, "user")) then Get(fields, "user")
    else None
  }

  datatype LoginOutcome = Success | Failure | NoLogin

  /** `login_success` is a success; `login_failure` and a bare `login` are failures. */
  function OutcomeOf(action: Option<string>): LoginOutcome {
    if action == Some("login_success") then Success
    else if action == Some("login_failure") || action == Some("login") then Failure
    else NoLogin
  }

  /** The status code of an `http_<code>` event: `int(event.split('_')[1])` when that piece is all digits. */
  function HttpCode(event: string): Option<nat> {
    if StartsWith(event, "http_") then
      assert OccursAt(event, "_", 4);
      var code := Split(event, "_")[1];
      if IsDigitString(code) then Some(DigitsValue(code)) else None
    else None
  }

  function BucketOf(code: nat): Option<string> {
    if 200 <= code < 300 then Some("2xx")
    else if 400 <= code < 500 then Some("4xx")
    else if 500 <= code < 600 then Some("5xx")
    else None
  }

  /** The HTTP status bucket a NetService event falls into, if any. */
  function HttpBucket(event: Option<string>): Option<string> {
    if Truthy(event) then
      match HttpCode(event.value)
      case Some(code) => BucketOf(code)
      case None => None
    else None
  }

  const AnomalyEvents: set<string> := {"http_503", "http_504", "wifi_disconnected", "tcp_reset"}

  /** The anomaly counter a NetService event increments, if any. */
  function AnomalyOf(event: Option<string>): Option<string> {
    if event.Some? && event.value in AnomalyEvents then event else None
  }

  function BumpOpt(m: map<string, nat>, k: Option<string>): map<string, nat> {
    match k
    case Some(key) => Bump(m, key)
    case None => m
  }

  /** The five containers of the pass, as a value. */
  datatype Tallies = Tallies(
    modelLatencies: map<string, seq<int>>,
    loginSuccess: map<string, nat>,
    loginFailure: map<string, nat>,
    httpStatus: map<string, nat>,
    anomalies: map<string, nat>)

  function EmptyTallies(): Tallies {
    Tallies(map[], map[], map[], map[], map[])
  }

  /** What the containers hold after a pass, whatever entries it saw. */
  ghost predicate WellFormed(t: Tallies) {
    && (forall m :: m in t.modelLatencies ==> |t.modelLatencies[m]| > 0)
    && (forall u :: u in t.loginSuccess ==> t.loginSuccess[u] > 0)
    && (forall u :: u in t.loginFailure ==> t.loginFailure[u] > 0)
    && (forall b :: b in t.httpStatus ==> t.httpStatus[b] > 0)
    && (forall a :: a in t.anomalies ==> t.anomalies[a] > 0)
    && t.httpStatus.Keys <= {"2xx", "4xx", "5xx"}
    && t.anomalies.Keys <= AnomalyEvents
  }

  /** The effect of one entry on the containers. */
  function Step(t: Tallies, e: Entry): Tallies {
    if e.source == Some("AIInference") then InferenceStep(t, e.fields)
    else if e.source == Some("MobileApp") then MobileAppStep(t, e.fields)
    else if e.source == Some("NetService") then NetServiceStep(t, e.fields)
    else t
  }

  /** An AIInference entry appends its samples to its own model's list. */
  function InferenceStep(t: Tallies, fields: map<string, string>): Tallies {
    match ModelOf(fields)
    case None => t
    case Some(m) =>
      var xs := AiSamples(fields);
      if xs == [] then t else t.(modelLatencies := t.modelLatencies[m := Samples(t.modelLatencies, m) + xs])
  }

  /** A MobileApp entry bumps its user's success or failure counter. */
  function MobileAppStep(t: Tallies, fields: map<string, string>): Tallies {
    match ResolveUser(fields)
    case None => t
    case Some(u) =>
      match OutcomeOf(Get(fields, "action"))
      case Success => t.(loginSuccess := Bump(t.loginSuccess, u))
      case Failure => t.(loginFailure := Bump(t.loginFailure, u))
      case NoLogin => t
  }

  /** A NetService entry bumps at most one status bucket and at most one anomaly counter. */
  function NetServiceStep(t: Tallies, fields: map<string, string>): Tallies {
    var event := Get(fields, "event");
    t.(httpStatus := BumpOpt(t.httpStatus, HttpBucket(event)),
       anomalies := BumpOpt(t.anomalies, AnomalyOf(event)))
  }

  /** The containers after a forward scan of `entries` starting from `t`. */
  function Fold(t: Tallies, entries: seq<Entry>): Tallies {
    if entries == [] then t else Step(Fold(t, entries[..|entries| - 1]), entries[|entries| - 1])
  }

  // ---------------------------------------------------------------------------
  // Derived tables
  // ---------------------------------------------------------------------------

  function Sum(s: seq<int>): int {
    if s == [] then 0 else Sum(s[..|s| - 1]) + s[|s| - 1]
  }

  /** One row of `model_stats`; `avg_ms` is kept as the exact pair sum / count. */
  datatype ModelStat = ModelStat(sumMs: int, count: nat, p95Ms: int)

  /** One row of `user_stats`. */
  datatype UserStat = UserStat(loginSuccess: nat, loginFailure: nat)

  ghost predicate IsModelStats(stats: map<string, ModelStat>, lat: map<string, seq<int>>) {
    && stats.Keys == (set m | m in lat && |lat[m]| > 0)
    && forall m :: m in stats ==>
         stats[m] == ModelStat(Sum(lat[m]), |lat[m]|, ComputeP95(lat[m]))
  }

  ghost predicate IsUserStats(stats: map<string, UserStat>, success: map<string, nat>, failure: map<string, nat>) {
    && stats.Keys == success.Keys + failure.Keys
    && forall u :: u in stats ==> stats[u] == UserStat(Count0(success, u), Count0(failure, u))
  }

  function AppendOpt(lat: map<string, seq<int>>, m: string, o: Option<int>): map<string, seq<int>> {
    match o
    case Some(x) => AppendSample(lat, m, x)
    case None => lat
  }

  function OptSeq(o: Option<int>): seq<int> {
    match o
    case Some(x) => [x]
    case None => []
  }

  /** Two optional appends add their samples, in order, to one list. */
  lemma AppendTwo(lat: map<string, seq<int>>, m: string, o1: Option<int>, o2: Option<int>)
    ensures AppendOpt(AppendOpt(lat, m, o1), m, o2)
         == if OptSeq(o1) + OptSeq(o2) == [] then lat else lat[m := Samples(lat, m) + (OptSeq(o1) + OptSeq(o2))]
  {
    match o1
    case None =>
      assert OptSeq(o1) + OptSeq(o2) == OptSeq(o2);
    case Some(x1) =>
      match o2
      case None =>
        assert OptSeq(o1) + OptSeq(o2) == [x1];
      case Some(x2) =>
        var l1 := AppendSample(lat, m, x1);
        assert Samples(l1, m) == Samples(lat, m) + [x1];
        assert OptSeq(o1) + OptSeq(o2) == [x1] + [x2];
        assert Samples(lat, m) + [x1] + [x2] == Samples(lat, m) + ([x1] + [x2]);
  }

  /** The two appends of the AIInference branch, on the latency lists. */
  method AddInferenceSamples(lat0: map<string, seq<int>>, m: string, fields: map<string, string>)
    returns (lat: map<string, seq<int>>)
    ensures lat == AppendOpt(AppendOpt(lat0, m, LatencySample(fields)), m, HealthSample(fields))
  {
    lat := lat0;
    if "latency_ms" in fields {
      var latency := ParseInt(fields["latency_ms"]);
      lat := AppendSample(lat, m, latency);
    }
    ghost var afterLatency := AppendOpt(lat0, m, LatencySample(fields));
    assert lat == afterLatency;
    if Get(fields, "event") == Some("health_check") && "avg_latency_ms" in fields {
      var latency := ParseInt(fields["avg_latency_ms"]);
      lat := AppendSample(lat, m, latency);
    }
  }

  /** An AIInference entry with a model is the two optional appends of the source, in order. */
  lemma InferenceStepIs(t: Tallies, fields: map<string, string>, m: string)
    requires ModelOf(fields) == Some(m)
    ensures InferenceStep(t, fields)
         == t.(modelLatencies := AppendOpt(AppendOpt(t.modelLatencies, m, LatencySample(fields)), m, HealthSample(fields)))
  {
    var o1, o2 := LatencySample(fields), HealthSample(fields);
    var xs := AiSamples(fields);
    assert xs == OptSeq(o1) + OptSeq(o2);
    AppendTwo(t.modelLatencies, m, o1, o2);
  }

  /** The bucket of an event, as the NetService branch computes it. */
  lemma HttpBucketSteps(event: Option<string>)
    ensures !(Truthy(event) && StartsWith(event.value, "http_")) ==> HttpBucket(event) == None
    ensures Truthy(event) && StartsWith(event.value, "http_") ==>
      assert OccursAt(event.value, "_", 4);
      var code := Split(event.value, "_")[1];
      HttpBucket(event) == if IsDigitString(code) then BucketOf(DigitsValue(code)) else None
  {
  }

  /** The anomaly the `http_` part of the NetService branch counts: `http_503` and `http_504`. */
  function HttpAnomaly(event: Option<string>): Option<string> {
    if Truthy(event) && StartsWith(event.value, "http_") && (event.value == "http_504" || event.value == "http_503")
    then event else None
  }

  /** The anomaly the two tests after the `http_` part count. */
  function NetworkAnomaly(event: Option<string>): Option<string> {
    if event == Some("wifi_disconnected") || event == Some("tcp_reset") then event else None
  }

  /** Counting the `http_` anomalies and then the network ones is counting `AnomalyOf`. */
  lemma AnomalyParts(m: map<string, nat>, event: Option<string>)
    ensures BumpOpt(BumpOpt(m, HttpAnomaly(event)), NetworkAnomaly(event)) == BumpOpt(m, AnomalyOf(event))
  {
    AnomalySteps(event);
    if event == Some("http_503") || event == Some("http_504") {
      assert HttpAnomaly(event) == event && NetworkAnomaly(event) == None;
    } else if event == Some("wifi_disconnected") || event == Some("tcp_reset") {
      assert HttpAnomaly(event) == None && NetworkAnomaly(event) == event;
    } else {
      assert HttpAnomaly(event) == None && NetworkAnomaly(event) == None;
    }
  }

  /** The anomaly an event counts under, as the NetService branch finds it. */
  lemma AnomalySteps(event: Option<string>)
    ensures event == Some("http_503") || event == Some("http_504") ==>
      Truthy(event) && StartsWith(event.value, "http_") && AnomalyOf(event) == event
    ensures event == Some("wifi_disconnected") || event == Some("tcp_reset") ==> AnomalyOf(event) == event
    ensures !(event.Some? && event.value in AnomalyEvents) ==> AnomalyOf(event) == None
  {
  }

  lemma InferenceWellFormed(t: Tallies, fields: map<string, string>)
    requires WellFormed(t)
    ensures WellFormed(InferenceStep(t, fields))
  {
  }

  lemma MobileAppWellFormed(t: Tallies, fields: map<string, string>)
    requires WellFormed(t)
    ensures WellFormed(MobileAppStep(t, fields))
  {
    match ResolveUser(fields)
    case None =>
    case Some(u) =>
      match OutcomeOf(Get(fields, "action"))
      case Success =>
        BumpPositive(t.loginSuccess, u);
        assert MobileAppStep(t, fields) == t.(loginSuccess := Bump(t.loginSuccess, u));
      case Failure =>
        BumpPositive(t.loginFailure, u);
        assert MobileAppStep(t, fields) == t.(loginFailure := Bump(t.loginFailure, u));
      case NoLogin =>
  }

  /** A counter of positive counts stays positive after a bump. */
  lemma BumpPositive(m: map<string, nat>, k: string)
    requires forall j :: j in m ==> m[j] > 0
    ensures forall j :: j in Bump(m, k) ==> Bump(m, k)[j] > 0
  {
  }

  /** A bump of an optional key adds one to exactly that key's count. */
  lemma BumpOptCount(m: map<string, nat>, k: Option<string>, b: string)
    ensures Count0(BumpOpt(m, k), b) == Count0(m, b) + (if k == Some(b) then 1 else 0)
  {
  }

  /** Only a NetService entry touches the status buckets and the anomaly counters. */
  lemma StepNet(t: Tallies, e: Entry)
    ensures e.source == Some("NetService") ==> Step(t, e) == NetServiceStep(t, e.fields)
    ensures e.source != Some("NetService") ==>
      Step(t, e).httpStatus == t.httpStatus && Step(t, e).anomalies == t.anomalies
  {
    if e.source == Some("AIInference") {
      match ModelOf(e.fields)
      case None =>
      case Some(m) =>
    } else if e.source == Some("MobileApp") {
      match ResolveUser(e.fields)
      case None =>
      case Some(u) =>
    }
  }

  lemma NetServiceWellFormed(t: Tallies, fields: map<string, string>)
    requires WellFormed(t)
    ensures WellFormed(NetServiceStep(t, fields))
  {
    BucketNames(Get(fields, "event"));
  }

  /** Every entry keeps the containers well formed. */
  lemma StepWellFormed(t: Tallies, e: Entry)
    requires WellFormed(t)
    ensures WellFormed(Step(t, e))
  {
    if e.source == Some("AIInference") {
      InferenceWellFormed(t, e.fields);
    } else if e.source == Some("MobileApp") {
      MobileAppWellFormed(t, e.fields);
    } else if e.source == Some("NetService") {
      NetServiceWellFormed(t, e.fields);
    }
  }

  lemma BucketNames(event: Option<string>)
    ensures HttpBucket(event).Some? ==> HttpBucket(event).value in {"2xx", "4xx", "5xx"}
    ensures AnomalyOf(event).Some? ==> AnomalyOf(event).value in AnomalyEvents
  {
  }

  // ---------------------------------------------------------------------------
  // What one entry does
  // ---------------------------------------------------------------------------

  /** The samples an entry adds to `model`'s list. */
  function EntrySamples(e: Entry, model: string): seq<int> {
    if e.source == Some("AIInference") && ModelOf(e.fields) == Some(model) then AiSamples(e.fields) else []
  }

  /** The entry is a MobileApp login event of `user` with outcome `o`. */
  predicate IsLogin(e: Entry, user: string, o: LoginOutcome) {
    e.source == Some("MobileApp") && ResolveUser(e.fields) == Some(user) && OutcomeOf(Get(e.fields, "action")) == o
  }

  /** The entry is a NetService event in status bucket `b`. */
  predicate InBucket(e: Entry, b: string) {
    e.source == Some("NetService") && HttpBucket(Get(e.fields, "event")) == Some(b)
  }

  /** The entry is a NetService event counted as anomaly `a`. */
  predicate IsAnomaly(e: Entry, a: string) {
    e.source == Some("NetService") && AnomalyOf(Get(e.fields, "event")) == Some(a)
  }

  /**
   * Each source touches only its own containers; an AIInference entry
   * without a (non-empty) model and an entry of any other source touch none.
   */
  lemma StepTouchesOwnContainers(t: Tallies, e: Entry)
    ensures e.source == Some("AIInference") ==>
      Step(t, e).(modelLatencies := t.modelLatencies) == t
    ensures e.source == Some("AIInference") && !Truthy(Get(e.fields, "model")) ==> Step(t, e) == t
    ensures e.source == Some("MobileApp") ==>
      Step(t, e).(loginSuccess := t.loginSuccess, loginFailure := t.loginFailure) == t
    ensures e.source == Some("MobileApp") && ResolveUser(e.fields) == None ==> Step(t, e) == t
    ensures e.source == Some("NetService") ==>
      Step(t, e).(httpStatus := t.httpStatus, anomalies := t.anomalies) == t
    ensures e.source !in {Some("AIInference"), Some("MobileApp"), Some("NetService")} ==> Step(t, e) == t
  {
  }

  /** An AIInference entry adds its 0 to 2 samples to its own model's list only. */
  lemma StepSamples(t: Tallies, e: Entry, model: string)
    ensures Samples(Step(t, e).modelLatencies, model) == Samples(t.modelLatencies, model) + EntrySamples(e, model)
    ensures |EntrySamples(e, model)| <= 2
  {
    if e.source == Some("AIInference") && ModelOf(e.fields).Some? {
      var m := ModelOf(e.fields).value;
      if model != m {
        assert EntrySamples(e, model) == [];
      }
    }
  }

  /** A login event bumps exactly one counter of exactly one user by one. */
  lemma StepLogins(t: Tallies, e: Entry, user: string)
    ensures Count0(Step(t, e).loginSuccess, user) == Count0(t.loginSuccess, user) + (if IsLogin(e, user, Success) then 1 else 0)
    ensures Count0(Step(t, e).loginFailure, user) == Count0(t.loginFailure, user) + (if IsLogin(e, user, Failure) then 1 else 0)
  {
    StepTouchesOwnContainers(t, e);
    if e.source == Some("MobileApp") && ResolveUser(e.fields).Some? {
      var u := ResolveUser(e.fields).value;
      var t' := MobileAppStep(t, e.fields);
      assert Step(t, e) == t';
      match OutcomeOf(Get(e.fields, "action"))
      case Success =>
        assert t' == t.(loginSuccess := Bump(t.loginSuccess, u));
      case Failure =>
        assert t' == t.(loginFailure := Bump(t.loginFailure, u));
      case NoLogin =>
        assert t' == t;
    }
  }

  /** A NetService event bumps at most one status bucket, by one. */
  lemma StepBuckets(t: Tallies, e: Entry, b: string)
    ensures Count0(Step(t, e).httpStatus, b) == Count0(t.httpStatus, b) + (if InBucket(e, b) then 1 else 0)
  {
    StepNet(t, e);
    if e.source == Some("NetService") {
      BumpOptCount(t.httpStatus, HttpBucket(Get(e.fields, "event")), b);
    }
  }

  /** A NetService event bumps at most one anomaly counter, by one. */
  lemma StepAnomalies(t: Tallies, e: Entry, a: string)
    ensures Count0(Step(t, e).anomalies, a) == Count0(t.anomalies, a) + (if IsAnomaly(e, a) then 1 else 0)
  {
    StepNet(t, e);
    if e.source == Some("NetService") {
      BumpOptCount(t.anomalies, AnomalyOf(Get(e.fields, "event")), a);
    }
  }

  /**
   * `http_<digits>`, possibly followed by a further `_`-piece, falls into the
   * bucket of the number its digits spell.
   */
  lemma HttpBucketOfCode(d: string, rest: string)
    requires IsDigitString(d)
    requires rest == "" || rest[0] == '_'
    ensures HttpBucket(Some("http_" + d + rest)) == BucketOf(DigitsValue(d))
  {
    var ev := "http_" + d + rest;
    assert ev[..5] == "http_";
    HttpFirstUnderscore(ev);
    SecondPieceOfSplit(ev, "_", 4);
    assert ev[5..] == d + rest;
    DigitsBeforeUnderscore(d, rest);
  }

  /** Digits followed by nothing or by `_` are the first `_`-piece. */
  lemma DigitsBeforeUnderscore(d: string, rest: string)
    requires IsDigitString(d)
    requires rest == "" || rest[0] == '_'
    ensures Split(d + rest, "_")[0] == d
  {
    var tail := d + rest;
    forall j | 0 <= j < |d| ensures !OccursAt(tail, "_", j) {
      assert tail[j..j + 1][0] == d[j];
    }
    if rest == "" {
      assert tail == d;
      assert Find(tail, "_") == None;
    } else {
      assert tail[|d|..|d| + 1] == [rest[0]];
      assert OccursAt(tail, "_", |d|);
      assert Find(tail, "_") == Some(|d|);
      assert tail[..|d|] == d;
    }
  }

  /** The first `_` of an `http_` event is the one after `http`. */
  lemma HttpFirstUnderscore(ev: string)
    requires StartsWith(ev, "http_")
    ensures Find(ev, "_") == Some(4)
  {
    assert OccursAt(ev, "_", 4);
    forall j | 0 <= j < 4 ensures !OccursAt(ev, "_", j) {
      assert ev[j] == "http_"[j];
      assert ev[j..j + 1][0] == ev[j];
    }
  }

  /** `event` is `http_`, the digits `d`, then nothing or a further `_`-piece `rest`. */
  predicate CodedEvent(event: Option<string>, d: string, rest: string) {
    IsDigitString(d) && (rest == "" || rest[0] == '_') && event == Some("http_" + d + rest)
  }

  /**
   * Conversely, an event with a bucket is `http_`, a run of digits and an
   * optional further `_`-piece, and the bucket is that of the digits' number.
   */
  lemma HttpBucketHasCode(event: Option<string>, b: string)
    requires HttpBucket(event) == Some(b)
    ensures exists d, rest :: CodedEvent(event, d, rest) && BucketOf(DigitsValue(d)) == Some(b)
  {
    var ev := event.value;
    HttpFirstUnderscore(ev);
    SecondPieceOfSplit(ev, "_", 4);
    var tail := ev[5..];
    FirstPieceOfSplit(tail, "_");
    var d := Split(tail, "_")[0];
    var rest := tail[|d|..];
    assert d == tail[..|d|];
    assert tail == d + rest;
    if rest != "" {
      assert tail[|d|..|d| + 1][0] == rest[0];
    }
    assert ev[..5] == "http_";
    assert ev == ev[..5] + tail;
    assert ev == "http_" + (d + rest) == "http_" + d + rest;
    assert Split(ev, "_")[1] == d;
    assert IsDigitString(d) && BucketOf(DigitsValue(d)) == Some(b);
    assert CodedEvent(event, d, rest) && BucketOf(DigitsValue(d)) == Some(b);
  }

  /** Status 418 is counted in the 4xx bucket. */
  lemma Http418()
    ensures HttpBucket(Some("http_418")) == Some("4xx")
  {
    assert "http_418" == "http_" + "418" + "";
    HttpBucketOfCode("418", "");
    assert DigitsValue("4") == 4;
    assert "41"[..1] == "4";
    assert DigitsValue("41") == 41;
    assert "418"[..2] == "41";
    assert DigitsValue("418") == 418;
  }

  /** Status 302 falls into no bucket. */
  lemma Http302()
    ensures HttpBucket(Some("http_302")) == None
  {
    assert "http_302" == "http_" + "302" + "";
    HttpBucketOfCode("302", "");
    assert DigitsValue("3") == 3;
    assert "30"[..1] == "3";
    assert DigitsValue("30") == 30;
    assert "302"[..2] == "30";
    assert DigitsValue("302") == 302;
  }

  /** Status 503 is counted in the 5xx bucket and as an anomaly. */
  lemma Http503()
    ensures HttpBucket(Some("http_503")) == Some("5xx")
    ensures AnomalyOf(Some("http_503")) == Some("http_503")
  {
    assert "http_503" == "http_" + "503" + "";
    HttpBucketOfCode("503", "");
    assert DigitsValue("5") == 5;
    assert "50"[..1] == "5";
    assert DigitsValue("50") == 50;
    assert "503"[..2] == "50";
    assert DigitsValue("503") == 503;
  }

  // ---------------------------------------------------------------------------
  // What a whole pass does
  // ---------------------------------------------------------------------------

  /** Scanning `a` then `b` is scanning `a + b`: the pass is a plain left fold. */
  lemma {:induction false} FoldConcat(t: Tallies, a: seq<Entry>, b: seq<Entry>)
    ensures Fold(t, a + b) == Fold(Fold(t, a), b)
  {
    if b != [] {
      assert (a + b)[..|a + b| - 1] == a + b[..|b| - 1];
      FoldConcat(t, a, b[..|b| - 1]);
    } else {
      assert a + b == a;
    }
  }

  lemma {:induction false} FoldWellFormed(t: Tallies, es: seq<Entry>)
    requires WellFormed(t)
    ensures WellFormed(Fold(t, es))
  {
    if es != [] {
      FoldWellFormed(t, es[..|es| - 1]);
      StepWellFormed(Fold(t, es[..|es| - 1]), es[|es| - 1]);
    }
  }

  /** All samples a pass collects for `model`, in observation order. */
  function SamplesFor(es: seq<Entry>, model: string): seq<int> {
    if es == [] then [] else SamplesFor(es[..|es| - 1], model) + EntrySamples(es[|es| - 1], model)
  }

  function CountLogins(es: seq<Entry>, user: string, o: LoginOutcome): nat {
    if es == [] then 0 else CountLogins(es[..|es| - 1], user, o) + (if IsLogin(es[|es| - 1], user, o) then 1 else 0)
  }

  function CountInBucket(es: seq<Entry>, b: string): nat {
    if es == [] then 0 else CountInBucket(es[..|es| - 1], b) + (if InBucket(es[|es| - 1], b) then 1 else 0)
  }

  function CountAnomalies(es: seq<Entry>, a: string): nat {
    if es == [] then 0 else CountAnomalies(es[..|es| - 1], a) + (if IsAnomaly(es[|es| - 1], a) then 1 else 0)
  }

  /** A model's list holds the samples of its entries, in the order they were seen. */
  lemma {:induction false} FoldSamples(t: Tallies, es: seq<Entry>, model: string)
    ensures Samples(Fold(t, es).modelLatencies, model) == Samples(t.modelLatencies, model) + SamplesFor(es, model)
  {
    if es != [] {
      var init := es[..|es| - 1];
      assert Fold(t, es) == Step(Fold(t, init), es[|es| - 1]);
      FoldSamples(t, init, model);
      StepSamples(Fold(t, init), es[|es| - 1], model);
    }
  }

  /** Each login counter of a user is the number of that user's login events of that outcome. */
  lemma {:induction false} FoldLogins(t: Tallies, es: seq<Entry>, user: string)
    ensures Count0(Fold(t, es).loginSuccess, user) == Count0(t.loginSuccess, user) + CountLogins(es, user, Success)
    ensures Count0(Fold(t, es).loginFailure, user) == Count0(t.loginFailure, user) + CountLogins(es, user, Failure)
  {
    if es != [] {
      var init := es[..|es| - 1];
      assert Fold(t, es) == Step(Fold(t, init), es[|es| - 1]);
      FoldLogins(t, init, user);
      StepLogins(Fold(t, init), es[|es| - 1], user);
    }
  }

  /** Each status bucket counts the NetService events whose code falls into it. */
  lemma {:induction false} FoldBuckets(t: Tallies, es: seq<Entry>, b: string)
    ensures Count0(Fold(t, es).httpStatus, b) == Count0(t.httpStatus, b) + CountInBucket(es, b)
  {
    if es != [] {
      var init := es[..|es| - 1];
      assert Fold(t, es) == Step(Fold(t, init), es[|es| - 1]);
      FoldBuckets(t, init, b);
      StepBuckets(Fold(t, init), es[|es| - 1], b);
    }
  }

  /** Each anomaly counter counts its NetService events. */
  lemma {:induction false} FoldAnomalies(t: Tallies, es: seq<Entry>, a: string)
    ensures Count0(Fold(t, es).anomalies, a) == Count0(t.anomalies, a) + CountAnomalies(es, a)
  {
    if es != [] {
      var init := es[..|es| - 1];
      assert Fold(t, es) == Step(Fold(t, init), es[|es| - 1]);
      FoldAnomalies(t, init, a);
      StepAnomalies(Fold(t, init), es[|es| - 1], a);
    }
  }

  /** Without AIInference entries no model collects samples, so `model_stats` is empty. */
  lemma {:induction false} NoInferenceNoSamples(t: Tallies, es: seq<Entry>)
    requires forall i :: 0 <= i < |es| ==> es[i].source != Some("AIInference")
    ensures Fold(t, es).modelLatencies == t.modelLatencies
  {
    if es != [] {
      NoInferenceNoSamples(t, es[..|es| - 1]);
      StepTouchesOwnContainers(Fold(t, es[..|es| - 1]), es[|es| - 1]);
    }
  }

  /** On well-formed containers `model_stats` has a row for every model seen. */
  lemma ModelStatsCoverModels(stats: map<string, ModelStat>, t: Tallies)
    requires WellFormed(t) && IsModelStats(stats, t.modelLatencies)
    ensures stats.Keys == t.modelLatencies.Keys
  {
  }

  /** `parse_int` reads a plain digit string as the number it spells. */
  lemma ParseIntOfDigits(d: string)
    requires IsDigitString(d)
    ensures ParseInt(d) == DigitsValue(d)
  {
    assert ParseNumeral(d) == DigitsValue(d);
    DigitsHaveNoSpace(d);
    NoSpaceStrip(d);
  }

  /** `parse_int` reads back a decimal numeral, with or without a sign. */
  lemma ParseIntOfNumeral(n: nat)
    ensures ParseInt(NatToString(n)) == n
    ensures ParseInt("-" + NatToString(n)) == -(n as int)
    ensures ParseInt("+" + NatToString(n)) == n
  {
    var d := NatToString(n);
    NatToStringRoundTrip(n);
    ParseIntOfDigits(d);
    SignedNumeral('-', d);
    SignedNumeral('+', d);
  }

  lemma SignedNumeral(sign: char, d: string)
    requires sign == '-' || sign == '+'
    requires IsDigitString(d)
    ensures ParseInt([sign] + d) == if sign == '-' then -(DigitsValue(d) as int) else DigitsValue(d)
  {
    var t := [sign] + d;
    assert t[1..] == d;
    assert ParseNumeral(t) == if sign == '-' then -(DigitsValue(d) as int) else DigitsValue(d) by {
      assert !IsDigit(t[0]);
    }
    NoSpaceStrip(t);
  }

  /** `parse_int` reads a numeral padded with whitespace as its signed value. */
  lemma ParseIntOfPadded(ws1: string, sign: string, d: string, ws2: string)
    requires PaddedNumeral(ws1 + sign + d + ws2, ws1, sign, d, ws2)
    ensures ParseInt(ws1 + sign + d + ws2) == SignedDigits(sign, d)
  {
    var x := sign + d;
    assert ws1 + sign + d + ws2 == ws1 + x + ws2;
    DigitsHaveNoSpace(d);
    assert x[|x| - 1] == d[|d| - 1];
    StripOfPadded(ws1, x, ws2);
    ParseNumeralOfSigned(sign, d);
  }

  /** A sign and digits, without padding, read as their signed value. */
  lemma ParseNumeralOfSigned(sign: string, d: string)
    requires sign == "" || sign == "+" || sign == "-"
    requires IsDigitString(d)
    ensures ParseNumeral(sign + d) == SignedDigits(sign, d)
  {
    var x := sign + d;
    if sign == "" {
      assert x == d;
    } else {
      assert x[1..] == d;
      assert !IsDigitString(x) by { assert !IsDigit(x[0]); }
    }
  }

  /**
   * `parse_int` is exact: a non-zero result is the signed value of a padded
   * numeral, so every other value, with or without digits, gives 0.
   */
  lemma ParseIntExact(value: string)
    ensures forall r :: r != 0 ==> (ParseInt(value) == r <==> ReadsAs(value, r))
    ensures forall ws1, sign, d, ws2 :: PaddedNumeral(value, ws1, sign, d, ws2) ==> ParseInt(value) == SignedDigits(sign, d)
  {
    forall ws1, sign, d, ws2 | PaddedNumeral(value, ws1, sign, d, ws2)
      ensures ParseInt(value) == SignedDigits(sign, d)
    {
      ParseIntOfPadded(ws1, sign, d, ws2);
    }
  }

  /** A unit after the digits makes `int` fail: the default 0. */
  lemma ParseIntRejectsUnit()
    ensures ParseInt("12ms") == 0
  {
    RejectedNumeral("12ms", 2);
  }

  /** A decimal point makes `int` fail: the default 0. */
  lemma ParseIntRejectsDecimal()
    ensures ParseInt("1.5") == 0
  {
    RejectedNumeral("1.5", 1);
  }

  /** Two signs make `int` fail: the default 0. */
  lemma ParseIntRejectsDoubleSign()
    ensures ParseInt("--5") == 0
  {
    RejectedNumeral("--5", 1);
  }

  /** Inner whitespace makes `int` fail: the default 0. */
  lemma ParseIntRejectsInnerSpace()
    ensures ParseInt("1 2") == 0
  {
    RejectedNumeral("1 2", 1);
  }

  /** A text without padding and with a non-digit after its first character is no numeral. */
  lemma RejectedNumeral(t: string, k: nat)
    requires 0 < k < |t| && !IsDigit(t[k])
    requires !IsSpace(t[0]) && !IsSpace(t[|t| - 1])
    ensures ParseInt(t) == 0
  {
    assert Strip(t) == t by {
      assert "" + t + "" == t;
      StripOfPadded("", t, "");
    }
    assert !AllDigits(t);
    assert !AllDigits(t[1..]) by { assert t[1..][k - 1] == t[k]; }
    assert ParseNumeral(t) == 0;
  }

  /** Whitespace around a numeral is ignored: `parse_int(" 12 ")` is 12. */
  lemma ParseIntPaddedExample()
    ensures ParseInt(" 12 ") == 12
  {
    assert " 12 " == " " + "" + "12" + " ";
    assert DigitsValue("1") == 1;
    assert "12"[..1] == "1";
    ParseIntOfPadded(" ", "", "12", " ");
  }

  /** `parse_int` falls back to 0 on a value without any digit. */
  lemma ParseIntNoDigits(value: string)
    requires forall i :: 0 <= i < |value| ==> !IsDigit(value[i])
    ensures ParseInt(value) == 0
  {
    var l := LStrip(value);
    var t := RStrip(l);
    assert t == Strip(value);
    forall i | 0 <= i < |t|
      ensures !IsDigit(t[i])
    {
      assert t[i] == l[i];
      assert l[i] == value[|value| - |l| + i];
    }
    if |t| > 0 {
      assert !IsDigitString(t) by { assert !IsDigit(t[0]); }
    }
    if |t| >= 2 {
      assert !IsDigitString(t[1..]) by { assert t[1..][0] == t[1]; }
    }
    assert ParseNumeral(t) == 0;
  }

  lemma DigitsHaveNoSpace(d: string)
    requires AllDigits(d)
    ensures NoSpace(d)
  {
    forall i | 0 <= i < |d| ensures !IsSpace(d[i]) {
      assert IsDigit(d[i]);
    }
  }

  lemma NoSpaceStrip(s: string)
    requires NoSpace(s)
    ensures Strip(s) == s
  {
    assert LStrip(s) == s;
    assert RStrip(s) == s;
  }

  /** On samples already in ascending order the p95 is read off at the nearest-rank index. */
  lemma P95OfSorted(s: seq<int>)
    requires Sorted(s) && |s| > 0
    ensures ComputeP95(s) == s[NearestRankIndex(|s|)]
  {
    SortOfSorted(s);
  }

  /** `compute_p95([10, 20, 30, 40, 50]) == 40`. */
  lemma P95OfFiveSamples()
    ensures ComputeP95([10, 20, 30, 40, 50]) == 40
  {
    var s := [10, 20, 30, 40, 50];
    assert NearestRankIndex(5) == 3 by {
      assert 5 * 95 / 100 == 4;
    }
    assert Sorted(s) by {
      forall i, j | 0 <= i < j < 5 ensures s[i] <= s[j] {
        assert s[i] == 10 * (i + 1) && s[j] == 10 * (j + 1);
      }
    }
    P95OfSorted(s);
  }

  /** Nineteen samples of 150 and one of 500: the p95 is the 19th sorted value, 150. */
  lemma P95OfTwentySamples()
    ensures ComputeP95(seq(19, _ => 150) + [500]) == 150
  {
    var s := seq(19, _ => 150) + [500];
    assert Sorted(s);
    P95OfSorted(s);
    assert NearestRankIndex(20) == 18;
  }

  // ---------------------------------------------------------------------------
  // The aggregator object of one pass
  // ---------------------------------------------------------------------------

  class Aggregator {
    var modelLatencies: map<string, seq<int>>
    var loginSuccess: map<string, nat>
    var loginFailure: map<string, nat>
    var httpStatus: map<string, nat>
    var anomalies: map<string, nat>

    function State(): Tallies
      reads this
    {
      Tallies(modelLatencies, loginSuccess, loginFailure, httpStatus, anomalies)
    }

    ghost predicate Valid()
      reads this
    {
      WellFormed(State())
    }

    constructor ()
      ensures Valid() && State() == EmptyTallies()
    {
      modelLatencies, loginSuccess, loginFailure, httpStatus, anomalies := map[], map[], map[], map[], map[];
    }

    /** The body of the per-entry loop: dispatch on `source`. */
    method Ingest(e: Entry)
      requires Valid()
      modifies this
      ensures Valid()
      ensures State() == Step(old(State()), e)
    {
      ghost var t := State();
      var source := e.source;
      if source == Some("AIInference") {
        IngestInference(e);
      } else if source == Some("MobileApp") {
        IngestMobileApp(e);
      } else if source == Some("NetService") {
        IngestNetService(e);
      }
      StepWellFormed(t, e);
    }

    method IngestInference(e: Entry)
      requires e.source == Some("AIInference")
      modifies this
      ensures State() == Step(old(State()), e)
    {
      ghost var t := State();
      var fields := e.fields;
      var model := Get(fields, "model");
      if !Truthy(model) {
        return;
      }
      var m := model.value;
      var lat := AddInferenceSamples(modelLatencies, m, fields);
      InferenceStepIs(t, fields, m);
      modelLatencies := lat;
    }

    method IngestMobileApp(e: Entry)
      requires e.source == Some("MobileApp")
      modifies this
      ensures State() == Step(old(State()), e)
    {
      ghost var t := State();
      var fields := e.fields;
      var user := Or(Or(Get(fields, "user_id"), Get(fields, "user_id")), Get(fields, "user"));
      if !Truthy(user) {
        user := Get(fields, "user_id");
      }
      if !Truthy(user) {
        return;
      }
      assert ResolveUser(fields) == user;
      var action := Get(fields, "action");
      if action == Some("login_success") {
        loginSuccess := Bump(loginSuccess, user.value);
      } else if action == Some("login_failure") || action == Some("login") {
        loginFailure := Bump(loginFailure, user.value);
      } else if action == Some("login") {
        // unreachable: a bare `login` was already counted as a failure
        assert false;
      }
    }

    method IngestNetService(e: Entry)
      requires e.source == Some("NetService")
      modifies this
      ensures State() == Step(old(State()), e)
    {
      ghost var t := State();
      var event := Get(e.fields, "event");
      if Truthy(event) && StartsWith(event.value, "http_") {
        CountHttpEvent(event.value);
      }
      assert httpStatus == BumpOpt(t.httpStatus, HttpBucket(event)) by { HttpBucketSteps(event); }
      assert anomalies == BumpOpt(t.anomalies, HttpAnomaly(event));
      CountNetworkAnomaly(event);
      AnomalyParts(t.anomalies, event);
      assert State() == NetServiceStep(t, e.fields);
    }

    /** The two network anomalies counted after the `http_` part. */
    method CountNetworkAnomaly(event: Option<string>)
      modifies this
      ensures anomalies == BumpOpt(old(anomalies), NetworkAnomaly(event))
      ensures httpStatus == old(httpStatus) && modelLatencies == old(modelLatencies)
      ensures loginSuccess == old(loginSuccess) && loginFailure == old(loginFailure)
    {
      if event == Some("wifi_disconnected") {
        anomalies := Bump(anomalies, "wifi_disconnected");
      }
      if event == Some("tcp_reset") {
        anomalies := Bump(anomalies, "tcp_reset");
      }
    }

    /** The `http_<code>` part of the NetService branch: status bucket, then 503 / 504 anomalies. */
    method CountHttpEvent(event: string)
      requires event != "" && StartsWith(event, "http_")
      modifies this
      ensures httpStatus == BumpOpt(old(httpStatus), HttpBucket(Some(event)))
      ensures anomalies == BumpOpt(old(anomalies), HttpAnomaly(Some(event)))
      ensures modelLatencies == old(modelLatencies)
      ensures loginSuccess == old(loginSuccess) && loginFailure == old(loginFailure)
    {
      HttpBucketSteps(Some(event));
      assert OccursAt(event, "_", 4);
      var code := Split(event, "_")[1];
      if IsDigitString(code) {
        var codeInt := DigitsValue(code);
        CountStatus(codeInt);
      }
      if event == "http_504" || event == "http_503" {
        anomalies := Bump(anomalies, event);
      }
    }

    /** The status bucket part: 2xx, 4xx or 5xx by range, nothing otherwise. */
    method CountStatus(codeInt: nat)
      modifies this
      ensures httpStatus == BumpOpt(old(httpStatus), BucketOf(codeInt))
      ensures anomalies == old(anomalies) && modelLatencies == old(modelLatencies)
      ensures loginSuccess == old(loginSuccess) && loginFailure == old(loginFailure)
    {
      if 200 <= codeInt < 300 {
        httpStatus := Bump(httpStatus, "2xx");
      } else if 400 <= codeInt < 500 {
        httpStatus := Bump(httpStatus, "4xx");
      } else if 500 <= codeInt < 600 {
        httpStatus := Bump(httpStatus, "5xx");
      }
    }

    /** The per-entry loop of the pass. */
    method IngestAll(entries: seq<Entry>)
      requires Valid()
      modifies this
      ensures Valid()
      ensures State() == Fold(old(State()), entries)
    {
      var i := 0;
      while i < |entries|
        invariant 0 <= i <= |entries|
        invariant Valid()
        invariant State() == Fold(old(State()), entries[..i])
      {
        assert entries[..i + 1][..i] == entries[..i];
        Ingest(entries[i]);
        i := i + 1;
      }
      assert entries[..i] == entries;
    }

    /** `model_stats`: one row per model with at least one sample. */
    method ModelStats() returns (stats: map<string, ModelStat>)
      ensures IsModelStats(stats, modelLatencies)
    {
      stats := map[];
      var remaining := modelLatencies.Keys;
      while remaining != {}
        invariant remaining <= modelLatencies.Keys
        invariant stats.Keys == (set m | m in modelLatencies && m !in remaining && |modelLatencies[m]| > 0)
        invariant forall m :: m in stats ==>
          stats[m] == ModelStat(Sum(modelLatencies[m]), |modelLatencies[m]|, ComputeP95(modelLatencies[m]))
        decreases remaining
      {
        var model :| model in remaining;
        var lats := modelLatencies[model];
        if lats != [] {
          stats := stats[model := ModelStat(Sum(lats), |lats|, ComputeP95(lats))];
        }
        remaining := remaining - {model};
      }
    }

    /** `user_stats`: one row per user seen in either login counter. */
    method UserStats() returns (stats: map<string, UserStat>)
      ensures IsUserStats(stats, loginSuccess, loginFailure)
    {
      stats := map[];
      var remaining := loginSuccess.Keys + loginFailure.Keys;
      while remaining != {}
        invariant remaining <= loginSuccess.Keys + loginFailure.Keys
        invariant stats.Keys == loginSuccess.Keys + loginFailure.Keys - remaining
        invariant forall u :: u in stats ==> stats[u] == UserStat(Count0(loginSuccess, u), Count0(loginFailure, u))
        decreases remaining
      {
        var user :| user in remaining;
        stats := stats[user := UserStat(Count0(loginSuccess, user), Count0(loginFailure, user))];
        remaining := remaining - {user};
      }
    }
  }

  /**
   * One metrics pass: fresh containers, one forward scan of the entries,
   * then the derived tables that the JSON report holds.
   */
  method RunPass(entries: seq<Entry>)
    returns (modelStats: map<string, ModelStat>, userStats: map<string, UserStat>,
             httpStatus: map<string, nat>, anomalies: map<string, nat>)
    ensures var t := Fold(EmptyTallies(), entries);
      && IsModelStats(modelStats, t.modelLatencies)
      && IsUserStats(userStats, t.loginSuccess, t.loginFailure)
      && httpStatus == t.httpStatus
      && anomalies == t.anomalies
  {
    var agg := new Aggregator();
    agg.IngestAll(entries);
    modelStats := agg.ModelStats();
    userStats := agg.UserStats();
    httpStatus, anomalies := agg.httpStatus, agg.anomalies;
  }
}
