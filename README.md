# Read-ahead sizing and pgbench log parsers

This project models a small set of storage and PostgreSQL benchmarking scripts in Dafny
and proves properties of them.

- `mini_lat.py` chooses a block device's `read_ahead_kb` in four steps:
  - It derives an I/O request size from the device's IOPS and bandwidth limits.
  - It measures sequential and random completion latency with two `fio` probes each, a
    write and then a read. A probe may leave a `test.0.0` file behind, which is removed
    once both means have been read and compared.
  - It computes the queue depth needed to keep the device busy at full bandwidth during
    one latency.
  - It sets the read-ahead to that many requests.
- `parse_init.py` and `pgbench_parse_init.py` find the line in which `pgbench -i` reports
  its initialisation timings, such as "done in 1127.08 s (drop tables 0.00 s, …)". They
  store the six values under fixed keys, as strings and as floats respectively.
- `pgbench_parse_progress.py` turns every `progress:` line into a record:
  - the time stamp as an ISO 8601 date;
  - tps, latency and stddev as floats, where stddev may be `NaN`.
- `pgbench_parse_summary.py` reads the end-of-run summary. It tries five anchored
  patterns in a fixed order, and the first that matches writes its key.

## Modules

- `Wrappers` holds the shared datatypes:
  - `Option` and `Result`;
  - the Python float, `Float` = `Finite(real) | Infinite | NaN`;
  - the exceptions a conversion raises.
- `Regex` models the subset of Python `re.match` these scripts use:
  - literal text;
  - the groups `(\d+.\d+)`, `(\d+.)` and `(\d+)`;
  - a trailing `(\d+.\d+|NaN)`;
  - an anchor at the start of the line.

  The relation `Matches` says which captures Python's backtracking matcher yields. The
  function `Match` computes them and is proved sound and complete for the patterns used
  here. In those patterns every inner group is followed by a space and then a character
  that is neither a digit nor a space. As a result, every line has at most one way to
  match.
- `MiniLat` models `mini_lat.py`:
  - The bounds and read-ahead arithmetic are exact `real`/`int` computations.
  - The `fio` runs are modelled by a `Host` class. It records the runs made so far and the
    set of files on disk. It holds an oracle that says, for the n-th run, whether fio wrote
    the job's file and which JSON report, if any, it printed.
  - `get_latency` and the top-level script are methods over it, each proved against a
    function that states its result.
- `ParseInit`, `PgbenchParseInit`, `PgbenchParseProgress` and `PgbenchParseSummary` model
  the four parsers:
  - Each loop over the lines of the file is a method.
  - Each method is proved equal to a function over the sequence of lines.
  - The functions carry the properties.

## Model

| member | source | states |
|---|---|---|
| MiniLat.Ceil | mini_lat.py:71-72 | `math.ceil`: the least integer not below x (c - 1 < x <= c) |
| MiniLat.CeilOfInt | mini_lat.py:79 | the ceiling of a whole number is that number, so `math.ceil(QD * RS)` is the product |
| MiniLat.CeilMonotone | mini_lat.py:78 | the ceiling never decreases as its argument grows |
| MiniLat.Min | mini_lat.py:57 | `min` is at most both arguments and equal to one of them |
| MiniLat.Max | mini_lat.py:73 | `max` is at least both arguments and equal to one of them |
| MiniLat.MinReal | mini_lat.py:71-72 | `min` at type real, for the sector limit and a bandwidth quotient: at most both and equal to one of them |
| MiniLat.DeriveBounds | mini_lat.py:55-73 | ZeroDivisionError exactly when the smaller IOPS limit is 0 or the headroom is 1; otherwise max_iops is the smaller IOPS limit, max_bw 1024 × the smaller bandwidth, IOPS_seq_IO max_iops × (1 − headroom), the two request sizes the ceilings of min(max_hw_sectors_kb, max_bw / IOPS_seq_IO) and min(max_hw_sectors_kb, max_bw / max_iops), and RS_min_seq_IO the larger of them |
| MiniLat.RequestSizeRange | mini_lat.py:70-73 | with positive limits the request size lies between 1 and max_hw_sectors_kb |
| MiniLat.SabrentBounds | mini_lat.py:55-73 | the script's constants give max_iops 650000, max_bw 6758400, IOPS_seq_IO 84500 and request size 80 KB |
| MiniLat.ReadAhead | mini_lat.py:78-79 | ZeroDivisionError exactly when the request size is 0; otherwise the read-ahead is the queue depth times the request size |
| MiniLat.ReadAheadCovers | mini_lat.py:78-79 | the read-ahead covers the KB transferred at full bandwidth during one latency and exceeds it by less than one request |
| MiniLat.ReadAheadMonotone | mini_lat.py:78-79 | a longer latency never gives a smaller read-ahead |
| MiniLat.ReadAheadExample | mini_lat.py:78-79 | 6758400 KB/s × 0.5 ms over 80 KB requests gives queue depth 43 and read-ahead 3440 KB |
| MiniLat.Field | mini_lat.py:32 | a subscript succeeds exactly on an object that has the key, and yields the value stored under it |
| MiniLat.First | mini_lat.py:32 | `[0]` succeeds exactly on a non-empty list, and yields its first item |
| MiniLat.Number | mini_lat.py:37-51 | `max` and `/` take the mean as a number exactly when it is a JSON number or a bool; the value is that number, or 1 or 0 for true or false; anything else is NotANumber, Python's TypeError |
| MiniLat.ClatMean | mini_lat.py:32-35 | the lookup of a mean fails only with the lookup error, and succeeds only on an object with "jobs" |
| MiniLat.ClatMeanSubscripts | mini_lat.py:32 | the lookup is the five subscripts applied in turn, the first that fails ending it |
| MiniLat.ClatMeanOfReport | mini_lat.py:32 | from a report shaped like fio's, `['jobs'][0][rw]['clat_ns']['mean']` yields the mean, whatever its type |
| MiniLat.ClatMeanIsReport | mini_lat.py:32 | conversely, every report the lookup succeeds on is shaped like fio's, with the value found as its mean |
| MiniLat.ClatMeanNeedsJobs | mini_lat.py:32 | a report without "jobs" raises the lookup error |
| MiniLat.Latency | mini_lat.py:37-51 | the result in nanoseconds is the larger of the two means |
| MiniLat.NatToStringValue | mini_lat.py:17 | the decimal text of a number reads back as that number |
| MiniLat.IntToString | mini_lat.py:15-18 | `str` of an integer is non-empty and begins with '-' exactly when the integer is negative |
| MiniLat.IntToStringInjective | mini_lat.py:15-18 | distinct integers give distinct f-string texts |
| MiniLat.FioCommand | mini_lat.py:13-19 | fourteen arguments: "fio", then options that each begin with "--" |
| MiniLat.FioCommandInjective | mini_lat.py:13-19 | different jobs give different fio argument lists, so the command determines the job |
| MiniLat.Mode | mini_lat.py:26-27 | the rw mode is op, prefixed by "rand" exactly for a random probe |
| MiniLat.Join | mini_lat.py:46 | `os.path.join` always ends with the name it joins |
| MiniLat.JoinParts | mini_lat.py:46 | `os.path.join`: an absolute name replaces the directory; otherwise the result is the directory, a separator when needed, then the name |
| MiniLat.ArtifactPath | mini_lat.py:39-46 | the file removed is the directory joined with "test.0.0" |
| MiniLat.Host.constructor | mini_lat.py:23 | a host starts with the given files, no fio runs and its fio oracle |
| MiniLat.MeasureLatency | mini_lat.py:9-23 | the job is appended to the runs; the result is the report fio printed, or FioFailed; the job's file is added exactly when that run wrote it, whether or not its output parsed |
| MiniLat.RemoveIfPresent | mini_lat.py:45-48 | the path is gone afterwards whether or not it was there; nothing else changes |
| MiniLat.FioRun | mini_lat.py:23 | `json.loads` of fio's output: the n-th run's report when its output parsed, FioFailed exactly when it did not |
| MiniLat.ProbeMean | mini_lat.py:31-35 | one probe as a value: it succeeds exactly when the run's output parsed and the report has the `jobs[0][rw].clat_ns.mean` path, giving the value stored there; otherwise FioFailed for an unparsed run and MissingField for a missing subscript |
| MiniLat.Probe | mini_lat.py:31-35 | one measure_latency plus one lookup: the value found in that run's report, its job appended to the runs, and its file added exactly when that run wrote it |
| MiniLat.LatencyOf | mini_lat.py:25-51 | get_latency succeeds exactly when both lookups succeed and both means are numbers, and then returns the larger mean divided by 1e9; once both lookups have succeeded its only error is NotANumber |
| MiniLat.Comparable | mini_lat.py:37 | the pairs `max` accepts: two numbers (a bool counting as one), or two strings; any other pair raises TypeError before the removal |
| MiniLat.ProbeRuns | mini_lat.py:31-35 | get_latency runs the write job, and then the read job exactly when the write lookup succeeded |
| MiniLat.ProbeJobsOfLatency | mini_lat.py:31-51 | a successful get_latency ran exactly the write job and then the read job |
| MiniLat.SlowerMean | mini_lat.py:37-51 | succeeds exactly when both means are numbers, with the larger mean in seconds, and is NotANumber otherwise; the job's file is removed exactly when `max` accepts the two means |
| MiniLat.GetLatency | mini_lat.py:25-51 | the result is `LatencyOf`; the runs made are `ProbeJobs`; the files afterwards are `LatencyFiles` of the files before |
| MiniLat.LatencyFilesLeft | mini_lat.py:31-48 | after get_latency the job's file is gone when the removal was reached; otherwise it is there exactly when it was before or one of the two runs wrote it; no other file changes |
| MiniLat.SuccessRemoves | mini_lat.py:37-51 | a successful get_latency reached the removal |
| MiniLat.StringMeans | mini_lat.py:37-51 | two string means pass `max` and the removal and then fail at the division: NotANumber, with the job's file gone |
| MiniLat.NonNumericMean | mini_lat.py:31-37 | a write mean that is not a number does not stop the read probe: both jobs run, and the error is the read probe's, or else NotANumber |
| MiniLat.LatencyOfReports | mini_lat.py:25-51 | when each run's report, whatever its other fields, holds a number as its mean, get_latency returns the larger mean divided by 1e9 |
| MiniLat.WriteFailureFirst | mini_lat.py:31-32 | a write run without a report fails get_latency with FioFailed before the read probe, after one run |
| MiniLat.ScriptResult | mini_lat.py:55-79 | a successful script had valid bounds, and its read-ahead is its queue depth times the derived request size |
| MiniLat.DeriveReadAhead | mini_lat.py:53-79 | the result is `ScriptResult`; a bounds error runs no probe and touches no file; otherwise the runs are the sequential probes, then the random ones if the sequential get_latency succeeded, and the files are what the get_latency calls leave; success means exactly the sequential write and read at the derived request size and the random write and read at 8 KB, all at max_iops, with the job's file removed |
| MiniLat.ScriptSteps | mini_lat.py:75-79 | by how far the script got: a failed sequential get_latency ends it with that error; a failed random one ends it after both; otherwise the result is the read-ahead of the sequential latency |
| MiniLat.ScriptRuns | mini_lat.py:75-79 | a successful script made exactly four fio runs, in order, and removed the job's file |
| MiniLat.ScriptCovers | mini_lat.py:70-79 | on success with positive limits, the request size is within 1..max_hw_sectors_kb and the read-ahead covers one sequential latency at full bandwidth |
| MiniLat.ScriptIsReadAhead | mini_lat.py:75-79 | on success both probes succeeded and the result is the read-ahead of the sequential latency |
| MiniLat.SabrentReadAhead | mini_lat.py:53-79 | with the script's constants and a 0.5 ms sequential latency the read-ahead is 3440 KB (43 requests of 80 KB) |
| Regex.Match | pgbench_parse_progress.py:20 | `re.match` either finds no match or returns captures that the pattern accepts at the start of the line, one per group |
| Regex.MatchComplete | pgbench_parse_progress.py:20 | conversely, any captures the pattern accepts are what `re.match` returns |
| Regex.GroupEndComplete | parse_init.py:8 | an inner group captures exactly the text before the separator that follows it |
| Regex.LongestEndComplete | pgbench_parse_progress.py:13 | the trailing `\d+.\d+` alternative captures the longest decimal prefix |
| Regex.MatchesExtend | parse_init.py:12 | a match without the trailing alternative survives any text appended to the line |
| Regex.InterleaveMatch | parse_init.py:8 | a pattern of literal texts and groups matches exactly when the line begins with the texts filled with captures the groups accept |
| Regex.OneGroup | pgbench_parse_summary.py:8-20 | a one-group pattern `^a(g)b` matches with capture c exactly when g accepts c and the line begins with a + c + b |
| ParseInit.InitPatternShape | parse_init.py:8 | the pattern has six groups, each followed by a separator that delimits it |
| ParseInit.InitMatch | parse_init.py:8-12 | a match yields six decimals, and the line begins with the texts filled with them |
| ParseInit.InitMatchComplete | parse_init.py:8-12 | conversely, such a line is matched with those six captures |
| ParseInit.Record | parse_init.py:14-20 | the six keys, each holding the value of its group |
| ParseInit.InitOutput | parse_init.py:9-22 | the output is empty or has exactly the six keys |
| ParseInit.Overwrite | parse_init.py:15-20 | the six assignments replace all of an earlier line's values |
| ParseInit.ParseInit | parse_init.py:7-22 | the loop returns `InitOutput` of the file's lines |
| ParseInit.Step | parse_init.py:11-20 | one more line: a match decides the output, any other line leaves it unchanged |
| ParseInit.NonMatchingSkipped | parse_init.py:12-13 | a non-matching line does not change the output |
| ParseInit.LastMatchWins | parse_init.py:11-20 | the output is the record of the last matching line |
| ParseInit.EmptyIffNoMatch | parse_init.py:9-22 | the output is empty exactly when no line matches |
| ParseInit.TrailingText | parse_init.py:12 | text after the pattern, such as the final full stop or newline, does not change the captures |
| ParseInit.ExampleCapsDecimal | parse_init.py:6 | the six timings of the documented line each have the shape `\d+.\d+` |
| ParseInit.DocumentedExample | parse_init.py:6-8 | the documented line, followed by anything, yields the dictionary of its six timings |
| PgbenchParseInit.SameSeps | pgbench_parse_init.py:11-18 | the concatenated string pieces are the texts of parse_init.py's pattern |
| PgbenchParseInit.SamePattern | pgbench_parse_init.py:11-18 | the two scripts compile the same pattern |
| PgbenchParseInit.SameLines | pgbench_parse_init.py:22 | both scripts match every line the same way |
| PgbenchParseInit.ConvertAll | pgbench_parse_init.py:26-31 | six successful `float` calls give six values |
| PgbenchParseInit.ConvertAllValues | pgbench_parse_init.py:26-31 | the conversion succeeds exactly when `float` accepts every capture, and then each value is that capture's float |
| PgbenchParseInit.ConvertAllFirstError | pgbench_parse_init.py:26-31 | the error raised is the ValueError of the first capture `float` rejects |
| PgbenchParseInit.InitFloats | pgbench_parse_init.py:19-31 | a finished output is empty or has exactly the six keys |
| PgbenchParseInit.ErrorFinal | pgbench_parse_init.py:21-31 | after a ValueError, later lines change nothing |
| PgbenchParseInit.FloatsOf | pgbench_parse_init.py:25-31 | the six `float` calls, in order, give `ConvertAll` of the captures |
| PgbenchParseInit.ParseInitFloats | pgbench_parse_init.py:19-33 | the script's loop returns `InitFloats` of the lines, output or error |
| PgbenchParseInit.Step | pgbench_parse_init.py:21-31 | one more line: skipped without a match; otherwise its floats replace the output or its error ends the run |
| PgbenchParseInit.NonMatchingSkipped | pgbench_parse_init.py:22-24 | a non-matching line is skipped |
| PgbenchParseInit.AgreesWithParseInit | pgbench_parse_init.py:21-31 | on success the keys equal parse_init.py's, and each value is the float of parse_init.py's string |
| PgbenchParseInit.FailsIffUnconvertible | pgbench_parse_init.py:21-31 | the script fails exactly when some matching line has a capture `float` rejects |
| PgbenchParseInit.LastMatchWins | pgbench_parse_init.py:21-31 | on success the output holds the floats of the last matching line |
| PgbenchParseProgress.PatternShape | pgbench_parse_progress.py:9-14 | the pattern has four groups; the three inner ones are each followed by a delimiting separator |
| PgbenchParseProgress.ProgressMatches | pgbench_parse_progress.py:9-14 | the pattern accepts captures exactly when the line begins with three decimals between the texts, followed by the longest decimal prefix or "NaN" |
| PgbenchParseProgress.ProgressMatch | pgbench_parse_progress.py:20 | a match has that shape |
| PgbenchParseProgress.ProgressMatchComplete | pgbench_parse_progress.py:20 | a line of that shape is matched with those captures |
| PgbenchParseProgress.ToRecord | pgbench_parse_progress.py:23-30 | succeeds exactly when every `float` call and the timestamp formatting succeed; the record then holds their values |
| PgbenchParseProgress.ErrorFinal | pgbench_parse_progress.py:19-32 | after an error, later lines change nothing |
| PgbenchParseProgress.Convert | pgbench_parse_progress.py:25-30 | the conversions in the script's order give `ToRecord`, including which error is raised first |
| PgbenchParseProgress.ProgressOutput | pgbench_parse_progress.py:19-32 | on success the list has at most one record per line |
| PgbenchParseProgress.ParseProgress | pgbench_parse_progress.py:19-34 | the loop returns `ProgressOutput` of the lines |
| PgbenchParseProgress.Step | pgbench_parse_progress.py:19-32 | one more line: skipped, or its record appended, or its error ends the run |
| PgbenchParseProgress.Matching | pgbench_parse_progress.py:19-24 | the captures of the matching lines, four each |
| PgbenchParseProgress.OneRecordPerMatch | pgbench_parse_progress.py:19-32 | on success the list has one record per matching line, in order, each converted from its captures |
| PgbenchParseProgress.FailsIffUnconvertible | pgbench_parse_progress.py:19-32 | the script fails exactly when some matching line does not convert |
| PgbenchParseProgress.NonMatchingSkipped | pgbench_parse_progress.py:20-24 | a non-matching line is skipped |
| PgbenchParseProgress.AppendOnly | pgbench_parse_progress.py:32 | later lines only append: the output of a prefix is a prefix of the output |
| PgbenchParseProgress.ExampleStddev | pgbench_parse_progress.py:13 | a stddev "0.268", followed by anything but a digit, is captured whole |
| PgbenchParseProgress.DocumentedExample | pgbench_parse_progress.py:8-14 | the documented progress line yields its four captures |
| PgbenchParseProgress.NaNStddev | pgbench_parse_progress.py:13 | a stddev of "NaN" is captured as "NaN" |
| PgbenchParseSummary.RulesValid | pgbench_parse_summary.py:7-20 | every one of the five patterns has an inner group delimited by its tail |
| PgbenchParseSummary.RuleMatch | pgbench_parse_summary.py:26-48 | a match means the line begins with lead, capture and tail, and the group accepts the capture |
| PgbenchParseSummary.RuleMatchComplete | pgbench_parse_summary.py:26-48 | conversely, such a line is matched with that capture |
| PgbenchParseSummary.LeadRequired | pgbench_parse_summary.py:8-20 | a pattern matches only lines that begin with its lead |
| PgbenchParseSummary.LeadMissing | pgbench_parse_summary.py:8-20 | a line without a pattern's lead is not matched by it |
| PgbenchParseSummary.FirstMatch | pgbench_parse_summary.py:25-49 | the rule chosen matches, and no earlier rule does; no rule is chosen only when none matches |
| PgbenchParseSummary.Convert | pgbench_parse_summary.py:28-48 | `int`/`float` of the capture, or ValueError exactly when the conversion rejects it |
| PgbenchParseSummary.Step | pgbench_parse_summary.py:25-51 | a matched line fails exactly when the conversion rejects the capture, with that capture's ValueError, and otherwise writes its rule's key with the converted capture and leaves every other key; an unmatched line ensures "duration" is present, as None if it was absent |
| PgbenchParseSummary.Summary | pgbench_parse_summary.py:25-51 | the loop only adds keys: on success every key it started with is still there |
| PgbenchParseSummary.StepFails | pgbench_parse_summary.py:25-49 | a step fails exactly on a line that a pattern matches and whose capture its conversion rejects |
| PgbenchParseSummary.FailsIffUnconvertible | pgbench_parse_summary.py:25-51 | the script raises ValueError exactly when some line of the log is such a line |
| PgbenchParseSummary.ParseSummary | pgbench_parse_summary.py:22-53 | the loop returns `Summary` of the lines |
| PgbenchParseSummary.Unroll | pgbench_parse_summary.py:25-51 | the summary of the lines from n is one step followed by the summary of the rest |
| PgbenchParseSummary.SummaryKeys | pgbench_parse_summary.py:25-51 | keys are only added, and only rule keys or "duration" |
| PgbenchParseSummary.OutputKeys | pgbench_parse_summary.py:22-53 | the output has no keys but the five of the script |
| PgbenchParseSummary.Persist | pgbench_parse_summary.py:25-51 | a key that no later line writes keeps its value |
| PgbenchParseSummary.SummaryAppend | pgbench_parse_summary.py:25-51 | reading a + b is reading a, then b from where a ended |
| PgbenchParseSummary.LastMatchWins | pgbench_parse_summary.py:25-51 | a key holds the converted capture of the last line that wrote it |
| PgbenchParseSummary.OnlyOneRuleMatches | pgbench_parse_summary.py:8-20 | the leads differ, so at most one pattern matches any line and the order of the tries does not matter |
| PgbenchParseSummary.Unanchored | pgbench_parse_summary.py:8-20 | a line that does not start with the first letter of a lead matches none of the five patterns, so only the duration default applies |
| PgbenchParseSummary.TpsExclKey | pgbench_parse_summary.py:43 | only the tps rule writes "tps_excl" |
| PgbenchParseSummary.TpsExclNeedsQualifier | pgbench_parse_summary.py:41-44 | "tps_excl" is written only by a line that begins "tps = ", a decimal and " (without initial connection time)" |
| PgbenchParseSummary.EmptyLog | pgbench_parse_summary.py:22-53 | an empty file gives an empty dictionary |
| PgbenchParseSummary.DurationExample | pgbench_parse_summary.py:7-8 | "duration: 100 s" captures "100" |
| PgbenchParseSummary.NoFirstMatch | pgbench_parse_summary.py:25-51 | when no pattern matches, no rule is chosen |
| PgbenchParseSummary.SummaryOfOne | pgbench_parse_summary.py:25-51 | one line is one step |
| PgbenchParseSummary.NoRuleMatches | pgbench_parse_summary.py:25-51 | when none of the five patterns matches, the line falls through to the duration default |
| PgbenchParseSummary.ShortDurationIgnored | pgbench_parse_summary.py:8 | the duration pattern as written does not match a one-digit duration |
| PgbenchParseSummary.ShortDurationUnmatched | pgbench_parse_summary.py:8-49 | no pattern matches "duration: d s" |
| PgbenchParseSummary.ShortDurationSummary | pgbench_parse_summary.py:8-51 | a log of "duration: d s" reports the duration as None |
| PgbenchParseSummary.IntendedDurationMatches | pgbench_parse_summary.py:8 | with `(\d+)`, every "duration: N s" line captures N, whatever N's number of digits |
| PgbenchParseSummary.IntendedDurationSummary | pgbench_parse_summary.py:8-51 | and its summary reports the duration `int(N)` |

## Left out

- `\d` is the ASCII digits only. Python also accepts other Unicode decimal digits.
- Python floats are modelled two ways:
  - The parsers' `float(...)`, `int(...)` and the ISO timestamp formatting are function
    parameters returning `Option`. A `None` models the exception they raise.
  - The arithmetic in `mini_lat.py` is exact `real`/`int` arithmetic. Rounding in the last
    bit of `max_bw * latency / RS` is not modelled.
- MiniLat.MeasureLatency: `subprocess.check_output` and `json.loads` are an oracle. It is
  keyed by the run's position and its `FioJob`, and the argument list is determined by the
  job (`FioCommandInjective`). The oracle says whether fio wrote the job's file and which
  report it printed, so a run whose output does not parse may still leave the file. What
  fio does with the device is not modelled.
- `number_ios` is written into the argument list as the literal "1000".
- MiniLat.Number: JSON booleans are accepted as numbers, as Python's `max` and `/` accept
  them. Other JSON types fail with NotANumber, which stands for Python's TypeError. The
  means are looked up without checking their type, so the TypeError comes only after both
  probes have run.
- MiniLat.SlowerMean: `max` is modelled as accepting two numbers or two strings. Two JSON
  lists are treated as rejected by `max`, although Python compares some pairs of lists;
  the division rejects them in any case, so only whether the file is removed differs.
- MiniLat.GetLatency: the comment at mini_lat.py:43-44 says the file is removed to avoid
  leaving files around. The code removes it only when get_latency gets past `max`, because
  an exception skips the `try`. The model follows the code.
- MiniLat.GetLatency: a failing `os.remove` other than FileNotFoundError (a permission
  error, say) is not modelled. Removal always succeeds in the model.
- The prints of `mini_lat.py` are not modelled. This covers `expected_runtime`, the
  `read_ahead_kb` message and the four fio command templates of lines 80-120.
- `latency_base_rand` is computed and never used. The model runs the probe, so its fio
  runs and its failure are kept, and discards its value.
- `blackhole.py` and `parse_watch_progress.py` are not part of this model.
- The parsers' file handling is not modelled: `open(sys.argv[1])`, the line iterator and
  `json.dump`/`print`. A file is modelled as the sequence of its lines.
- `match.groups(0)`: the default 0 only replaces groups that did not take part in the
  match. Every group of these patterns takes part, so the default never applies.
- ParseInit.DocumentedExample and PgbenchParseProgress.DocumentedExample: the documented
  lines are stated as their texts filled with the captures (`Fill`), followed by any
  suffix, rather than as one literal string.

## Findings

| source | as written | input that shows it | evidently intended | confidence | as-written member | corrected member |
|---|---|---|---|---|---|---|
| pgbench_parse_summary.py:8 | `^duration: (\d+.) s` needs at least two characters before " s", so a one-digit duration is not matched | "duration: 5 s", the summary of a run shorter than ten seconds, is reported as `"duration": None` | `^duration: (\d+) s`, which captures every run of digits | not executed | PgbenchParseSummary.ShortDurationSummary | PgbenchParseSummary.IntendedDurationSummary |

The corrected table `IntendedRules` differs from the script's rules only in the duration
pattern. The loop lemmas are stated for any rule table, so they hold for it as well:
`SummaryKeys`, `Persist`, `SummaryAppend` and `LastMatchWins`.
