# Log analytics core, modelled in Dafny

This project models the small log-analytics programs of a training
repository about AI-assisted development for mobile AI services. The logs
come from three kinds of source: `MobileApp`, `NetService` and
`AIInference`. The programs parse those logs, count levels and events,
estimate a 95th-percentile latency, decide which alert rules fire and lay
out a report mail. The repository also holds a duplicate finder in a slow
and a fast version, and a greeting function.

One Dafny module per source file, plus four shared modules:

| module | file | models |
|---|---|---|
| `Wrappers` | wrappers.dfy | `Option` |
| `Text` | text.dfy | Python's `str.split()`, `" ".join`, `strip()`, `in`, `find`, `split(sep)`, the leading-digit scan, decimal numerals |
| `Counters` | counters.dfy | a `Counter` as `map<string, nat>`: missing key reads 0, `+= 1` |
| `Percentile` | percentile.dfy | `sorted()` and the nearest-rank index `max(0, int(n*0.95) - 1)` both p95 estimators use |
| `StructuredParser` | structured_parser.dfy | `mobile_log_basic_ai.py`: header split, `key=value` body parser, `parse_line`, `parse_file` |
| `NaiveParser` | naive_parser.dfy | `mobile_log_basic_manual.py`: `parse_line_naive` |
| `Metrics` | metrics.dfy | `mobile_log_metrics_ai.py`: `parse_int`, `compute_p95`, the dispatch loop as class `Aggregator`, `model_stats` and `user_stats` |
| `HealthCheck` | health_check.dfy | `scheduled_log_alert_manual.py`: `analyze_log`, `check_abnormal`, `build_email_body` |
| `LevelAnalyzer` | level_analyzer.dfy | `log_analyzer_ai.py`: `LOG_PATTERN` as a staged recogniser, `parse_line`, the counting and ratio logic of `analyze_log` |
| `NaiveMetrics` | naive_metrics.dfy | `mobile_log_metrics_manual.py`: the counting loop and latency scan of `main` |
| `Duplicates` | duplicates.dfy | `slow_script_ai.py` and `slow_script_manual.py`: both duplicate finders and their equivalence; the two files' `find_duplicates_slow` have the same body, so one method models both |
| `Greeting` | greeting.dfy | `hello_realtek_ai.py`: `greet` |

Where the program changes state step by step, the model does too:
- `ParseBody`, `ParseFile`, `AnalyzeLog`, `CollectMetrics`, `CountLevels`
  and both duplicate finders are methods with loops.
- `CheckAbnormal` is a method that fills `triggered` with five
  straight-line `if` statements, as `check_abnormal` does.
- Each of those loops is proved against a specification function.
- The metrics pass is a class `Aggregator`. Its five `map` fields are the
  five containers of `main`, and its methods update them in place.

Whitespace is the ASCII set of Python's `str.isspace()`: space, tab, `\n`,
`\v`, `\f`, `\r` and `\x1c`–`\x1f`. A digit is `0`–`9`, and a word
character is a letter, a digit or `_`.

Points where the code behaves differently from what its comments or
docstrings suggest (the model follows the code):
- **Quoted values.** A quoted value in a body never holds a space.
  `_parse_body` splits the body on whitespace before it applies the
  `key=value` pattern (`mobile_log_basic_ai.py:98`).
- **Bare `login`.** A bare `login` action counts as a login failure
  (`mobile_log_metrics_ai.py:98`). The branch at line 100 is unreachable.
- **`compute_p95([])`.** It returns 0, although its docstring speaks of
  fewer than two values (`mobile_log_metrics_ai.py:33-35`).
- **`LOG_PATTERN` rejects both line formats the repository shows.**
  - The example in the comment at `log_analyzer_ai.py:42` puts the date in
    brackets, and `LOG_PATTERN` wants a digit first
    (`LevelAnalyzer.NonDigitStartNeverMatches`).
  - The mobile log format writes the level without brackets, and
    `LOG_PATTERN` wants `[` after the time
    (`LevelAnalyzer.UnbracketedLevelNeverMatches`).
  - Such lines are all counted as `UNKNOWN`.

## Model

| member | source | states |
|---|---|---|
| StructuredParser.SplitHeaderAndBody | 05_log_ai_analytics/code_Python/mobile_log_basic_ai.py:61-64 | there is no header exactly when the line has fewer than four whitespace-separated tokens |
| StructuredParser.HeaderOfLine | 05_log_ai_analytics/code_Python/mobile_log_basic_ai.py:67-70 | the timestamp is token 0, a space and token 1, and it splits back into those two tokens; level and source are tokens 2 and 3 verbatim; the body splits back into tokens 4.., so it is empty exactly for a four-token line |
| StructuredParser.KvMatch | 05_log_ai_analytics/code_Python/mobile_log_basic_ai.py:96-101 | a recognised token is its key, `=` and its value; the key is a non-empty run of word characters and the value is non-empty |
| StructuredParser.KvMatchOfPair | 05_log_ai_analytics/code_Python/mobile_log_basic_ai.py:96-101 | conversely, every such key, `=` and value is recognised, as exactly that key and value |
| StructuredParser.UnquoteCases | 05_log_ai_analytics/code_Python/mobile_log_basic_ai.py:103-104 | a value in double quotes loses them; a lone `"` becomes empty; any other value is unchanged |
| StructuredParser.ParseBody | 05_log_ai_analytics/code_Python/mobile_log_basic_ai.py:89-110 | the token loop builds the field map of the body's tokens and the single-space join of its non-field tokens |
| StructuredParser.BodyPartition | 05_log_ai_analytics/code_Python/mobile_log_basic_ai.py:98-107 | every body token goes to the fields or to the raw message, never both and never neither (multisets add up; fields are exactly the tokens that match) |
| StructuredParser.RawTokensOfConcat | 05_log_ai_analytics/code_Python/mobile_log_basic_ai.py:106-107 | raw tokens keep their input order: the raw tokens of two runs of tokens are those of the first, then those of the second |
| StructuredParser.RawTokensAreTokens | 05_log_ai_analytics/code_Python/mobile_log_basic_ai.py:106-107 | every raw token is a token of the body |
| StructuredParser.RawMessageTokens | 05_log_ai_analytics/code_Python/mobile_log_basic_ai.py:109 | the raw message splits back into exactly the non-field tokens, in order |
| StructuredParser.FieldKeys | 05_log_ai_analytics/code_Python/mobile_log_basic_ai.py:98-105 | a key is in the field map exactly when some body token is a field with that key |
| StructuredParser.LastValueWins | 05_log_ai_analytics/code_Python/mobile_log_basic_ai.py:105 | a key maps to the unquoted value of its last occurrence |
| StructuredParser.ParseLine | 05_log_ai_analytics/code_Python/mobile_log_basic_ai.py:131-143 | `parse_line` returns the entry built from the header split and the body parse, or none |
| StructuredParser.EntryOfLine | 05_log_ai_analytics/code_Python/mobile_log_basic_ai.py:131-143 | `parse_line` fails exactly when the header split does; otherwise level and source are tokens 2 and 3, the fields are those of tokens 4.., and the raw message splits back into their non-field tokens |
| StructuredParser.ParseFile | 05_log_ai_analytics/code_Python/mobile_log_basic_ai.py:164-178 | the file loop keeps, in order, the entries of the lines that parse after trailing newlines are removed and empty lines skipped |
| StructuredParser.EmptyLineFilterRedundant | 05_log_ai_analytics/code_Python/mobile_log_basic_ai.py:170-176 | removing trailing newlines and skipping empty lines changes nothing: the result equals parsing every raw line |
| NaiveParser.ParseLineNaive | 05_log_ai_analytics/code_Python/mobile_log_basic_manual.py:21-42 | none exactly when the line has no tokens; a header split exactly when it has four or more (the fields are stated by `NaiveCases`) |
| NaiveParser.NaiveCases | 05_log_ai_analytics/code_Python/mobile_log_basic_manual.py:21-42 | none exactly for a blank line; the stripped line as `raw` for one to three tokens; for four or more, a header field for field equal to the structured parser's header split, with its body as message |
| NaiveParser.NaiveMessage | 05_log_ai_analytics/code_Python/mobile_log_basic_manual.py:31-35 | the message splits back into tokens 4.., so it is empty exactly for a four-token line |
| NaiveParser.NaiveRaw | 05_log_ai_analytics/code_Python/mobile_log_basic_manual.py:22-29 | a kept-whole line is non-empty, has no surrounding whitespace and has the same tokens as the input |
| Metrics.ParseInt | 05_log_ai_analytics/code_Python/mobile_log_metrics_ai.py:25-30 | `parse_int` never fails; a non-zero result is the signed value of the input read as whitespace, an optional `+` or `-`, a digit string and whitespace (`ReadsAs`) |
| Metrics.ParseIntOfPadded | 05_log_ai_analytics/code_Python/mobile_log_metrics_ai.py:25-28 | whitespace, an optional sign, digits and whitespace parse to the signed value of the digits |
| Metrics.ParseIntExact | 05_log_ai_analytics/code_Python/mobile_log_metrics_ai.py:25-30 | both directions: the result is a non-zero `r` exactly when the value reads as a padded numeral of value `r`; every such reading gives the result; any other value gives the default 0 |
| Metrics.RejectedNumeral | 05_log_ai_analytics/code_Python/mobile_log_metrics_ai.py:27-30 | a text without surrounding whitespace that has a non-digit after its first character is not an integer and gives the default 0 |
| Metrics.ParseIntPaddedExample | 05_log_ai_analytics/code_Python/mobile_log_metrics_ai.py:25-28 | `" 12 "` parses to 12 |
| Metrics.ParseIntRejectsUnit | 05_log_ai_analytics/code_Python/mobile_log_metrics_ai.py:27-30 | `"12ms"` is not an integer and gives the default 0 |
| Metrics.ParseIntRejectsDecimal | 05_log_ai_analytics/code_Python/mobile_log_metrics_ai.py:27-30 | `"1.5"` is not an integer and gives the default 0 |
| Metrics.ParseIntRejectsDoubleSign | 05_log_ai_analytics/code_Python/mobile_log_metrics_ai.py:27-30 | `"--5"` is not an integer and gives the default 0 |
| Metrics.ParseIntRejectsInnerSpace | 05_log_ai_analytics/code_Python/mobile_log_metrics_ai.py:27-30 | `"1 2"` is not an integer and gives the default 0 |
| Metrics.ParseIntOfDigits | 05_log_ai_analytics/code_Python/mobile_log_metrics_ai.py:25-28 | a string of digits parses to its decimal value |
| Metrics.ParseIntOfNumeral | 05_log_ai_analytics/code_Python/mobile_log_metrics_ai.py:25-28 | the decimal text of `n`, with or without a sign, parses back to `n` or `-n` |
| Metrics.SignedNumeral | 05_log_ai_analytics/code_Python/mobile_log_metrics_ai.py:25-28 | a sign followed by digits parses to the signed value |
| Metrics.ParseIntNoDigits | 05_log_ai_analytics/code_Python/mobile_log_metrics_ai.py:25-30 | a value without any digit cannot be converted and gives the default 0 |
| Metrics.ComputeP95 | 05_log_ai_analytics/code_Python/mobile_log_metrics_ai.py:32-39 | 0 for no samples; otherwise a member of the samples whose rank brackets the nearest-rank index (fewer samples are below it, more are at most it) |
| Metrics.P95OfSorted | 05_log_ai_analytics/code_Python/mobile_log_metrics_ai.py:36-39 | for sorted samples the p95 is the element at the nearest-rank index |
| Metrics.P95OfFiveSamples | 05_log_ai_analytics/code_Python/mobile_log_metrics_ai.py:32-39 | the p95 of 10, 20, 30, 40, 50 is 40 |
| Metrics.P95OfTwentySamples | 05_log_ai_analytics/code_Python/mobile_log_metrics_ai.py:32-39 | among nineteen samples of 150 and one of 500, the p95 is 150 |
| Metrics.AiSamples | 05_log_ai_analytics/code_Python/mobile_log_metrics_ai.py:78-85 | an AIInference entry contributes one sample for `latency_ms` and one for a `health_check` with `avg_latency_ms` |
| Metrics.StepTouchesOwnContainers | 05_log_ai_analytics/code_Python/mobile_log_metrics_ai.py:70-126 | each source changes only its own containers; AIInference without a model, MobileApp without a user and any other source change nothing |
| Metrics.StepSamples | 05_log_ai_analytics/code_Python/mobile_log_metrics_ai.py:73-85 | an entry appends its zero to two samples to its own model's list, and to no other list |
| Metrics.StepLogins | 05_log_ai_analytics/code_Python/mobile_log_metrics_ai.py:88-102 | a user's success counter rises by one exactly for that user's `login_success`; the failure counter exactly for `login_failure` or a bare `login` |
| Metrics.StepBuckets | 05_log_ai_analytics/code_Python/mobile_log_metrics_ai.py:105-117 | a status bucket rises by one exactly for a NetService event in that bucket |
| Metrics.StepAnomalies | 05_log_ai_analytics/code_Python/mobile_log_metrics_ai.py:118-126 | an anomaly counter rises by one exactly for a NetService event of that name |
| Metrics.AnomalyParts | 05_log_ai_analytics/code_Python/mobile_log_metrics_ai.py:118-126 | counting `http_503`/`http_504` inside the `http_` branch and then `wifi_disconnected`/`tcp_reset` bumps exactly the one anomaly counter of the event, if any |
| Metrics.HttpBucketOfCode | 05_log_ai_analytics/code_Python/mobile_log_metrics_ai.py:108-117 | `http_` followed by digits, then nothing or a further `_`-piece, lands in the bucket of the digits' number |
| Metrics.HttpBucketHasCode | 05_log_ai_analytics/code_Python/mobile_log_metrics_ai.py:108-117 | conversely, an event with a bucket is `http_`, digits and nothing or a further `_`-piece, and the bucket is that of the digits' number |
| Metrics.Http418 | 05_log_ai_analytics/code_Python/mobile_log_metrics_ai.py:114-115 | `http_418` lands in the 4xx bucket |
| Metrics.Http302 | 05_log_ai_analytics/code_Python/mobile_log_metrics_ai.py:112-117 | `http_302` lands in no bucket |
| Metrics.Http503 | 05_log_ai_analytics/code_Python/mobile_log_metrics_ai.py:116-120 | `http_503` lands in the 5xx bucket and also counts as an anomaly |
| Metrics.BucketNames | 05_log_ai_analytics/code_Python/mobile_log_metrics_ai.py:113-126 | buckets are only `2xx`, `4xx`, `5xx`; anomalies only the four named events |
| Metrics.StepWellFormed | 05_log_ai_analytics/code_Python/mobile_log_metrics_ai.py:70-126 | one entry keeps the containers well formed: no empty list, no zero count, only known bucket and anomaly names |
| Metrics.FoldWellFormed | 05_log_ai_analytics/code_Python/mobile_log_metrics_ai.py:60-126 | a whole pass keeps the containers well formed |
| Metrics.FoldConcat | 05_log_ai_analytics/code_Python/mobile_log_metrics_ai.py:60-126 | a pass over two runs of entries is the pass over the second from where the first left off |
| Metrics.FoldSamples | 05_log_ai_analytics/code_Python/mobile_log_metrics_ai.py:73-85 | after a pass, a model's list holds the samples of its entries in the order they were seen |
| Metrics.FoldLogins | 05_log_ai_analytics/code_Python/mobile_log_metrics_ai.py:88-102 | after a pass, a user's counters are the numbers of their success and failure entries |
| Metrics.FoldBuckets | 05_log_ai_analytics/code_Python/mobile_log_metrics_ai.py:105-117 | after a pass, a bucket's counter is the number of its entries |
| Metrics.FoldAnomalies | 05_log_ai_analytics/code_Python/mobile_log_metrics_ai.py:118-126 | after a pass, an anomaly's counter is the number of its entries |
| Metrics.NoInferenceNoSamples | 05_log_ai_analytics/code_Python/mobile_log_metrics_ai.py:73-85 | without AIInference entries the latency lists do not change |
| Metrics.ModelStatsCoverModels | 05_log_ai_analytics/code_Python/mobile_log_metrics_ai.py:132-140 | after a pass, `model_stats` has a row for every model with a list |
| Metrics.Aggregator.constructor | 05_log_ai_analytics/code_Python/mobile_log_metrics_ai.py:45-49 | the five containers start empty |
| Metrics.Aggregator.Ingest | 05_log_ai_analytics/code_Python/mobile_log_metrics_ai.py:70-126 | one entry updates the containers as the dispatch rules say, and keeps them well formed |
| Metrics.Aggregator.IngestInference | 05_log_ai_analytics/code_Python/mobile_log_metrics_ai.py:73-85 | the AIInference branch, in place |
| Metrics.Aggregator.IngestMobileApp | 05_log_ai_analytics/code_Python/mobile_log_metrics_ai.py:88-102 | the MobileApp branch, in place |
| Metrics.Aggregator.IngestNetService | 05_log_ai_analytics/code_Python/mobile_log_metrics_ai.py:105-126 | the NetService branch, in place |
| Metrics.Aggregator.CountHttpEvent | 05_log_ai_analytics/code_Python/mobile_log_metrics_ai.py:108-120 | an `http_` event bumps its bucket, and its anomaly counter when it is 503 or 504; the other containers are unchanged |
| Metrics.Aggregator.IngestAll | 05_log_ai_analytics/code_Python/mobile_log_metrics_ai.py:60-126 | the loop over the entries leaves the containers equal to the pass over them, well formed |
| Metrics.Aggregator.ModelStats | 05_log_ai_analytics/code_Python/mobile_log_metrics_ai.py:132-140 | a row exactly for each model with a non-empty list, holding sum and count of its samples and their p95 |
| Metrics.Aggregator.UserStats | 05_log_ai_analytics/code_Python/mobile_log_metrics_ai.py:143-148 | a row for each user with a success or failure count, a missing side reading 0 |
| Metrics.RunPass | 05_log_ai_analytics/code_Python/mobile_log_metrics_ai.py:45-148 | the whole pass from empty containers, then both tables |
| HealthCheck.AnalyzeLog | 06_scheduled_log_alert/code_python/scheduled_log_alert_manual.py:39-84 | the loop's result: four line-kind counts, p95 and sample count of the asr samples |
| HealthCheck.ReadAsrSample | 06_scheduled_log_alert/code_python/scheduled_log_alert_manual.py:56-68 | the split and the character loop yield `AsrSample` of the line, whose meaning `AsrSampleAfterMarker` states |
| HealthCheck.CountKindSplits | 06_scheduled_log_alert/code_python/scheduled_log_alert_manual.py:47-55 | each count adds a line at most once and adds up over consecutive runs of lines |
| HealthCheck.AsrSampleAfterMarker | 06_scheduled_log_alert/code_python/scheduled_log_alert_manual.py:56-68 | an asr line's sample is the digit run right after its first `latency_ms=`, none without a digit; other lines give none |
| HealthCheck.AsrSamplesNonNegative | 06_scheduled_log_alert/code_python/scheduled_log_alert_manual.py:62-68 | no sample is negative |
| HealthCheck.SummaryP95 | 06_scheduled_log_alert/code_python/scheduled_log_alert_manual.py:70-83 | p95 is absent exactly without samples; otherwise a non-negative member at the nearest-rank index; `asr_samples` is the sample count |
| HealthCheck.CheckAbnormal | 06_scheduled_log_alert/code_python/scheduled_log_alert_manual.py:87-113 | the triggered items of the five rules tried in order |
| HealthCheck.TriggeredUnfolds | 06_scheduled_log_alert/code_python/scheduled_log_alert_manual.py:92-111 | `triggered` is the item of error_count, then http_5xx, gpu_oom, wifi_disconnect, asr_p95 |
| HealthCheck.TriggeredEntries | 06_scheduled_log_alert/code_python/scheduled_log_alert_manual.py:90-113 | an item is in `triggered` exactly when its rule fires, with the rule's observed value |
| HealthCheck.TriggeredInRuleOrder | 06_scheduled_log_alert/code_python/scheduled_log_alert_manual.py:90-113 | items come in rule order, so no key appears twice |
| HealthCheck.AsrThresholdIsStrict | 06_scheduled_log_alert/code_python/scheduled_log_alert_manual.py:108-111 | a p95 equal to `max_p95_ms` does not fire, one above does; the default is 200 |
| HealthCheck.RuleDefaults | 06_scheduled_log_alert/code_python/scheduled_log_alert_manual.py:92-106 | a missing or disabled section never fires; an enabled count rule without threshold fires from 1 |
| HealthCheck.TriggeredLines | 06_scheduled_log_alert/code_python/scheduled_log_alert_manual.py:136-137 | one `- k: v` line per triggered item, in order |
| HealthCheck.SummaryLines | 06_scheduled_log_alert/code_python/scheduled_log_alert_manual.py:118-133 | the summary block is nine lines whatever the p95 |
| HealthCheck.BuildEmailBody | 06_scheduled_log_alert/code_python/scheduled_log_alert_manual.py:116-147 | the body is the summary, alert and advice lines joined by newlines |
| HealthCheck.AppendAlertBlock | 06_scheduled_log_alert/code_python/scheduled_log_alert_manual.py:134-139 | the triggered branch or the single no-alert line is appended |
| HealthCheck.AppendTriggeredLines | 06_scheduled_log_alert/code_python/scheduled_log_alert_manual.py:136-137 | the loop appends one line per item |
| HealthCheck.NoAlertBlock | 06_scheduled_log_alert/code_python/scheduled_log_alert_manual.py:138-139 | without triggered items line 9 is the no-alert line and no alert header appears |
| HealthCheck.TriggeredAlertBlock | 06_scheduled_log_alert/code_python/scheduled_log_alert_manual.py:134-137 | with items, line 9 is the alert header followed by exactly their lines |
| HealthCheck.TriggeredHasNoNoAlertLine | 06_scheduled_log_alert/code_python/scheduled_log_alert_manual.py:134-139 | with items, the no-alert line appears nowhere |
| HealthCheck.MarkersNotInSummary | 06_scheduled_log_alert/code_python/scheduled_log_alert_manual.py:119-131 | the summary block holds neither block marker |
| HealthCheck.MarkersNotInAdvice | 06_scheduled_log_alert/code_python/scheduled_log_alert_manual.py:141-145 | the advice block holds neither block marker |
| HealthCheck.MarkersNotInTriggered | 06_scheduled_log_alert/code_python/scheduled_log_alert_manual.py:136-137 | no `- k: v` line is a block marker |
| HealthCheck.AlertBlockBetween | 06_scheduled_log_alert/code_python/scheduled_log_alert_manual.py:134-139 | wherever the alert block sits, its header is followed by the item lines and the no-alert line is absent |
| LevelAnalyzer.SpaceRun | 03_optimization_debug/code_python/log_analyzer_ai.py:45-49 | the longest whitespace run at the start: all whitespace, followed by a non-space |
| LevelAnalyzer.MatchLog | 03_optimization_debug/code_python/log_analyzer_ai.py:43-52 | a match has level INFO, WARN or ERROR and starts, after its indent, with a digit (the full language is stated by `MatchRendered` and `MatchSound`) |
| LevelAnalyzer.MatchRendered | 03_optimization_debug/code_python/log_analyzer_ai.py:43-52 | every line laid out as indent, date, space, time, space, `[INFO]`/`[WARN]`/`[ERROR]`, space, text matches, with that date-time, level and stripped text |
| LevelAnalyzer.MatchSound | 03_optimization_debug/code_python/log_analyzer_ai.py:43-52 | conversely, every matching line is such a layout, and the match reads its parts |
| LevelAnalyzer.DebugNeverMatches | 03_optimization_debug/code_python/log_analyzer_ai.py:48 | a `[DEBUG]` line in that layout never matches |
| LevelAnalyzer.NonDigitStartNeverMatches | 03_optimization_debug/code_python/log_analyzer_ai.py:42-46 | a line whose first non-space is not a digit never matches, so the bracketed example of the comment does not |
| LevelAnalyzer.UnbracketedLevelNeverMatches | 03_optimization_debug/code_python/log_analyzer_ai.py:47-48 | a level written without brackets after the time never matches |
| LevelAnalyzer.ParseLine | 03_optimization_debug/code_python/log_analyzer_ai.py:54-69 | a date-time exactly when the level is not UNKNOWN, the level otherwise INFO, WARN or ERROR, and without a date-time the message is the stripped line |
| LevelAnalyzer.ParseLineLevel | 03_optimization_debug/code_python/log_analyzer_ai.py:54-69 | the level is INFO, WARN or ERROR and a date-time is present exactly when the line matches; otherwise UNKNOWN with the stripped line |
| LevelAnalyzer.CountLevels | 03_optimization_debug/code_python/log_analyzer_ai.py:73-81 | the counter holds, for every level, the number of lines parsed with it, and has a key exactly for the levels that occur |
| LevelAnalyzer.CountLevelStep | 03_optimization_debug/code_python/log_analyzer_ai.py:78-81 | each line raises exactly its own level's count by one |
| LevelAnalyzer.CountsAddUp | 03_optimization_debug/code_python/log_analyzer_ai.py:78-90 | the four level counts add up to the number of lines |
| LevelAnalyzer.AnalyzeLog | 03_optimization_debug/code_python/log_analyzer_ai.py:71-113 | level counts as above, total = number of lines, recommendations present exactly when ERROR exceeds a tenth of the lines, and then the four fixed texts |
| NaiveMetrics.ReadLatency | 03_optimization_debug/code_python/mobile_log_metrics_manual.py:39-51 | the character loop yields `LatencyOf` of the line: the digit run after the first `latency_ms=` on an `AIInference` line, none otherwise |
| NaiveMetrics.CollectMetrics | 03_optimization_debug/code_python/mobile_log_metrics_manual.py:23-61 | the loop's three counts, samples and (sum, count) average are those of the kept lines |
| NaiveMetrics.Average | 03_optimization_debug/code_python/mobile_log_metrics_manual.py:57-61 | an average exists exactly with samples, and is their sum over their count |
| NaiveMetrics.BlankLineIgnored | 03_optimization_debug/code_python/mobile_log_metrics_manual.py:28-30 | a line blank after strip changes no counter and adds no sample |
| NaiveMetrics.KeptLineCounts | 03_optimization_debug/code_python/mobile_log_metrics_manual.py:32-37 | a kept line raises every counter whose marker it contains, independently |
| NaiveMetrics.InfoAndErrorBothCount | 03_optimization_debug/code_python/mobile_log_metrics_manual.py:32-37 | a kept line holding ` INFO ` and ` ERROR ` but not ` WARN ` adds one to the INFO and ERROR counts and leaves WARN unchanged |
| NaiveMetrics.CountAtMostLines | 03_optimization_debug/code_python/mobile_log_metrics_manual.py:32-37 | no counter exceeds the number of lines |
| NaiveMetrics.LatenciesAtMostLines | 03_optimization_debug/code_python/mobile_log_metrics_manual.py:39-51 | there is at most one sample per line |
| NaiveMetrics.SampleNeedsBothMarkers | 03_optimization_debug/code_python/mobile_log_metrics_manual.py:39 | only lines with both `AIInference` and `latency_ms=` give a sample |
| NaiveMetrics.SampleIsDigitsAfterMarker | 03_optimization_debug/code_python/mobile_log_metrics_manual.py:41-51 | the sample is the digit run right after the first `latency_ms=`, none without digits |
| NaiveMetrics.KeptLineSample | 03_optimization_debug/code_python/mobile_log_metrics_manual.py:50-51 | samples are appended in line order |
| Duplicates.FindDuplicatesSlow | 03_optimization_debug/code_python/slow_script_ai.py:8-16 | the nested loops return `SlowDuplicates`, the values found at another position, each once, in order of first occurrence; `slow_script_manual.py:13-20` has the same body |
| Duplicates.SlowMembers | 03_optimization_debug/code_python/slow_script_ai.py:11-15 | a value is in the result exactly when it occurs at two distinct positions |
| Duplicates.SlowNoRepeats | 03_optimization_debug/code_python/slow_script_manual.py:18 | the result holds no value twice |
| Duplicates.SlowInFirstOccurrenceOrder | 03_optimization_debug/code_python/slow_script_manual.py:15-19 | the result lists values in the order of their first occurrence in the input |
| Duplicates.SlowAtMostHalf | 03_optimization_debug/code_python/slow_script_manual.py:15-19 | the result is at most half as long as the input |
| Duplicates.FindDuplicatesFast | 03_optimization_debug/code_python/slow_script_ai.py:18-27 | the set-based loop returns each value occurring at least twice, once |
| Duplicates.ListOf | 03_optimization_debug/code_python/slow_script_ai.py:27 | `list(set)` has the set's elements, once each |
| Duplicates.DupsOfSnoc | 03_optimization_debug/code_python/slow_script_ai.py:22-26 | one more number adds itself to the duplicates exactly when seen before |
| Duplicates.CompareFinders | 03_optimization_debug/code_python/slow_script_ai.py:50 | `slow` is the slow finder's result and `fast` holds each duplicated value once; the two are equal once sorted |
| Duplicates.FindersAgree | 03_optimization_debug/code_python/slow_script_ai.py:50 | any list holding each duplicated value once has the slow result's multiset and sorts to the same list |
| Duplicates.DupCount | 03_optimization_debug/code_python/slow_script_manual.py:15-19 | a reported value occurs at least twice in the input |
| Greeting.Greet | 01_intro_ai_assisted_dev/code_python/hello_realtek_ai.py:6-9 | the greeting starts with `Hello, `, ends with ` from Realtek!` and has the name in between |
| Greeting.GreetedNameOfGreet | 01_intro_ai_assisted_dev/code_python/hello_realtek_ai.py:9 | the name can be read back from the greeting |
| Greeting.GreetEmpty | 01_intro_ai_assisted_dev/code_python/hello_realtek_ai.py:7-9 | the empty name greets `Engineer` |
| Greeting.GreetNonEmpty | 01_intro_ai_assisted_dev/code_python/hello_realtek_ai.py:9 | any other name, whitespace included, is used verbatim |
| Greeting.GreetInjective | 01_intro_ai_assisted_dev/code_python/hello_realtek_ai.py:7-9 | different non-empty names give different greetings |
| Greeting.DefaultCollision | 01_intro_ai_assisted_dev/code_python/hello_realtek_ai.py:7-8 | the empty name and `Engineer` give the same greeting |
| Percentile.SortAsc | 05_log_ai_analytics/code_Python/mobile_log_metrics_ai.py:36 | `sorted()` is ordered, the same multiset and the same length |
| Percentile.SortedUnique | 03_optimization_debug/code_python/slow_script_ai.py:50 | two sorted lists of the same elements are equal |
| Percentile.NearestRankIndex | 05_log_ai_analytics/code_Python/mobile_log_metrics_ai.py:37-38 | the index is within the list and below 95% of its length |
| Percentile.NearestRankIsRank | 06_scheduled_log_alert/code_python/scheduled_log_alert_manual.py:73-75 | the element at the index of the sorted list is ranked there in the original |
| Text.Tokens | 05_log_ai_analytics/code_Python/mobile_log_basic_ai.py:61 | `split()` gives non-empty tokens without whitespace |
| Text.TokensOfJoin | 05_log_ai_analytics/code_Python/mobile_log_basic_ai.py:70 | joining tokens by single spaces and splitting again gives them back |
| Text.TokensOfStrip | 05_log_ai_analytics/code_Python/mobile_log_basic_manual.py:22-27 | stripping a line does not change its tokens |
| Text.StripEmptyIffNoTokens | 05_log_ai_analytics/code_Python/mobile_log_basic_manual.py:22-24 | a line is blank after strip exactly when it has no tokens |
| Text.ScanLeadingDigits | 06_scheduled_log_alert/code_python/scheduled_log_alert_manual.py:61-66 | the character loop collects the longest digit prefix |
| Text.LeadingDigitsAfterFirst | 06_scheduled_log_alert/code_python/scheduled_log_alert_manual.py:58-60 | the digit prefix of the second split piece is the digit run after the first separator |
| Text.NatToStringRoundTrip | 05_log_ai_analytics/code_Python/mobile_log_metrics_ai.py:28 | the decimal text of a number reads back as that number |
| Counters.Bump | 05_log_ai_analytics/code_Python/mobile_log_metrics_ai.py:97 | `counter[k] += 1` raises that key by one and leaves the others alone |

## Left out

- File and console I/O: opening and reading files, `load_log_lines`,
  `print`, `logging`, `argparse`, `sys.exit`, `input()`, and JSON/CSV output.
  - Each program works on the lines or entries handed to it.
  - `StructuredParser.ParseFile` only models the loop body of
    `parse_file`, on lines already read.
- JSON decoding (`json.loads`) is left out: entries arrive as
  `Metrics.Entry` values. The source skips a line with a JSON syntax
  error, so such a line simply has no entry here.
  - A line that decodes to JSON other than an object crashes `main`
    (`entry.get` on a list, number or string, `mobile_log_metrics_ai.py:70`).
    The model has no such entry and no crash.
  - An entry of a dispatched source whose `fields` is JSON `null` crashes
    `main` (`fields.get` on `None`, `mobile_log_metrics_ai.py:71-74`).
    `Metrics.Entry` always carries a map, so this crash is not modelled.
  - Field values are strings. Non-string field values (JSON numbers,
    booleans, lists, objects) are outside the model. Three inputs where the
    source then behaves differently from any string the model could carry:
    - a float latency such as `"latency_ms": 12.5` gives `int(12.5) == 12`
      in the source (`mobile_log_metrics_ai.py:28`). The text `12.5` gives
      the default 0 (`Metrics.ParseIntRejectsDecimal`);
    - a truthy numeric `event` such as 503 makes `main` crash with
      AttributeError on `event.startswith` (`mobile_log_metrics_ai.py:108`).
      The text `503` falls in no branch, and the entry changes nothing;
    - a numeric 0 in `model`, `user_id` or `user` is falsy, so the source
      skips the entry (`mobile_log_metrics_ai.py:75`, `:89-94`). The text
      `0` is present and non-empty, so the model counts the entry.
  - The Python truthiness of the `model`, `user_id` and `user` fields is
    modelled as "present and non-empty".
- `06_scheduled_log_alert/code_python/email_utils.py` is not part of this
  model: it sends the mail over SMTP.
- Configuration values that crash `check_abnormal` are not modelled.
  `HealthCheck.AlertConfig` only holds well-typed sections.
  - `alerts`, or one rule section, present but YAML `null` raises
    AttributeError (`None.get`, `scheduled_log_alert_manual.py:88-108`).
  - A threshold key present with value `null` raises TypeError
    (`>= None` or `> None`, `scheduled_log_alert_manual.py:92-110`). In
    the model a threshold of `None` stands for a missing key, so such a
    rule fires on its default threshold instead.
- Also not part of this model:
  - `load_config` (YAML reading) in
    `scheduled_log_alert_manual.py`: `AlertConfig` is its result;
  - `03_optimization_debug/code_python/log_analyzer_manual.py`, which has
    no logic;
  - `06_scheduled_log_alert/code_python/scheduled_log_alert_ai.py`, which
    has no code.
- Clocks and timing are left out. This covers `time.perf_counter`,
  `time.time`, `datetime.utcnow`, and the `generated_at` and `file` keys
  of the report.
- `print_table` in `log_analyzer_ai.py` is left out. It only prints.
- Floating point:
  - `Metrics.Aggregator.ModelStats` and `NaiveMetrics.Average` keep the
    average as the exact pair (sum, count). They do not model
    `statistics.mean`, `round(avg, 2)` or the `:.2f` format.
- `Percentile.NearestRankIndex` computes `int(n*0.95)` exactly, as
  `n*95/100`. This idealises the float product.
- `LevelAnalyzer.AnalyzeLog` states the ratio test `ERROR/total > 0.10`
  exactly, as `10*ERROR > total`. It does not model float rounding, or
  `round(error_ratio, 4)` in the report.
  - The `error_ratio` key is not part of the report datatype.
- `LevelAnalyzer.CountLevels` does not keep `parsed_lines`. The source
  builds that list and never uses it.
- Character classes are ASCII only. Python's `\s`, `\d`, `\w`,
  `str.isdigit()`, `str.isspace()` and `split()` also accept other Unicode
  digits, letters and spaces.
- `Metrics.ParseInt` models `int()` on text as an optional sign and ASCII
  digits, with surrounding whitespace allowed. It does not model
  underscores between digits, non-ASCII digits, or non-string JSON values.
- `Duplicates.FindDuplicatesFast` and `Duplicates.ListOf` leave the order
  of `list(set)` open. Python's order depends on hashing, so the contract
  states membership and no repeats only.
  - `Duplicates.CompareFinders` therefore compares the two results after
    sorting, as the source does.
- The mail itself is left out: `main` of `scheduled_log_alert_manual.py`
  builds its subject and sends it. The model stops at
  `HealthCheck.BuildEmailBody`.
- Of every `main`, the file and console I/O, the printing, the timing,
  the command-line handling and the demonstration data (`slow_script_ai.py`,
  `slow_script_manual.py`) are left out. Three parts of a `main` are modelled:
  - the dispatch loop of `mobile_log_metrics_ai.py:41-148`, as the class
    `Metrics.Aggregator`;
  - the loop of `mobile_log_metrics_manual.py:18-61`, as
    `NaiveMetrics.CollectMetrics`;
  - the consistency assertion at `slow_script_ai.py:50`, as
    `Duplicates.CompareFinders`.
