# Chaos Monkey Demo — a verified model of its decision logic

The Chaos Monkey Demo is a small chaos-engineering playground with five parts:

- a **chaos monkey** that picks registered fault experiments at random and runs them behind a probability gate;
- a **load tester** that sends weighted traffic to a demo web service and summarises the results;
- a **system monitor** that samples host and service health, keeps a bounded history and raises alerts;
- the **demo service**, whose routes update shared request and error counters and fail at random;
- a **dashboard** that launches and stops the other parts and classifies the service's health answer.

This project models the sequential bookkeeping and decision logic under that glue, and proves properties about it. Everything the environment decides is an input to the model:

- random draws, the index `random.choice` picks, and the delays;
- status codes, elapsed times and connection failures;
- `psutil` readings;
- whether starting a thread, allocating a chunk or writing a file raises;
- whether a KeyboardInterrupt arrives while a fault is held.

Files:

- `basics.dfy` (module `Basics`): Python-flavoured helpers used by all modules:
  - `int()` truncation, `max` and `min`;
  - string repetition with Python's rule for negative counts;
  - integer-to-text conversion and ASCII lower-casing;
  - the cell arithmetic shared by both progress bars.
- `chaos_monkey.dfy` (module `Chaos`): the experiment record, the fault handlers with their acquire / hold / release bookkeeping, the dispatch, the scheduler tick and the `ChaosMonkey` class.
- `load_tester.dfy` (module `Load`): weighted endpoint choice, the `LoadTester` counters, the run, and the final summary figures.
- `system_monitor.dfy` (module `Monitor`): app-metric collection, the alert rules, the 100-sample history, the bars and the data-frame rows.
- `demo_app.dfy` (module `Demo`): the `app_state` counters and every route and handler that touches them.
- `streamlit_app.dfy` (module `Dashboard`): the running-process registry and the health classification.

Facts of the code that the model keeps:

- Only status 200 counts as healthy in `check_demo_app_status` (streamlit_app.py:82).
- A negative `interval` makes `time.sleep` raise ValueError after the first tick of the chaos monkey (chaos_monkey.py:82) and after the first sample of the monitor (system_monitor.py:171-175).
- `start_load_test` calls `self._plot_results()` (load_tester.py:180), which `LoadTester` never defines. So every run that gets past the division by the thread count ends in an AttributeError after the final report. `Load.LoadTester.StartLoadTest` reports exactly that ending.

## Model

| member | source | states |
|---|---|---|
| Chaos.Param | chaos_monkey.py:130 | a parameter comes from the experiment's dictionary when the key is there, and is the default when the dictionary is absent, empty or lacks the key |
| Chaos.DefaultsApply | chaos_monkey.py:130-187 | without parameters the handlers use cores=2, mb=100, latency_ms=1000 and size_mb=10; the service name (`ServiceName`) is the target unless it is absent or empty, and then "demo_service"; it is never empty |
| Chaos.Acquired | chaos_monkey.py:133-136 | an acquisition of `n` units stops short of `n` exactly when the hazard raises at an earlier unit |
| Chaos.Hold | chaos_monkey.py:157 | `time.sleep(duration)` fails exactly when the duration is negative, is interrupted exactly when an interrupt arrives during a valid hold, and keeps the handler's report |
| Chaos.CpuStressJoinsAll | chaos_monkey.py:130-140 | cpu stress starts at most `cores` workers; on a calm run it starts and joins exactly `cores`; a completed run has joined every worker it started |
| Chaos.CpuStressHandler | chaos_monkey.py:118-142 | the two loops (start the workers, then join them) produce exactly the outcome the cpu-stress specification gives |
| Chaos.MemoryStressReleases | chaos_monkey.py:146-161 | every chunk is 1024*1024 bytes; `mb` chunks are held unless an allocation raises; the list is empty on every exit path; the run completes exactly when nothing raised, the duration is valid and no interrupt came |
| Chaos.MemoryStressHandler | chaos_monkey.py:144-162 | the allocation loop and the `finally` clear produce exactly the memory-stress outcome |
| Chaos.SleepingHandlers | chaos_monkey.py:164-210 | network latency, service kill and process hang (`NetworkLatencySpec`, `ServiceKillSpec`, `ProcessHangSpec`) acquire nothing, so a raise while acquiring never affects them; network latency reports its latency and fails exactly on a negative duration; service kill holds 2 seconds and so never fails; process hang completes exactly on a valid duration without an interrupt |
| Chaos.DiskFillSpec | chaos_monkey.py:185-202 | after disk fill the temporary file is gone and the rest of the directory is unchanged; a write that does not raise writes `size_mb*1024*1024` bytes |
| Chaos.ExecutionSpec | chaos_monkey.py:97-116 | the handler that runs is the one for the experiment's kind; only a KeyboardInterrupt escapes; only disk fill touches the directory, and only to remove its own file |
| Chaos.ExecuteExperiment | chaos_monkey.py:97-116 | the dispatch method agrees with the execution specification, outcome and directory |
| Chaos.TickSpec | chaos_monkey.py:74-80 | an empty registry does nothing; otherwise the picked experiment runs exactly when the draw is below its probability, so probability 0 never runs and probability 1 always does |
| Chaos.RunGate | chaos_monkey.py:67-87 | over a whole run (`RunSpec`) every tick obeys the gate and reports the picked experiment, and an empty registry only idles |
| Chaos.RunEnding | chaos_monkey.py:67-87 | a run ends before the inputs run out only on an interrupt or on the ValueError of a negative interval; that error escapes exactly when the interval is negative and the last tick was not interrupted; a negative interval allows at most one tick |
| Chaos.ZeroProbabilityNeverRuns | chaos_monkey.py:76-82 | a registry whose experiments all have probability 0 never executes any; it ticks once per input, or once in all when the interval is negative |
| Chaos.ResumesStep | chaos_monkey.py:73-82 | one turn of the `start` loop either stops the run (an interrupt, or the sleep raising on a negative interval), leaving it complete, or leaves the rest of the run still to come |
| Chaos.ChaosMonkey.constructor | chaos_monkey.py:46-49 | a new monkey has no experiments and is not running |
| Chaos.ChaosMonkey.AddExperiment | chaos_monkey.py:62-65 | the experiment is appended at the end; earlier entries and the running flag are unchanged |
| Chaos.ChaosMonkey.Stop | chaos_monkey.py:89-95 | the running flag is cleared and the registry kept |
| Chaos.ChaosMonkey.Tick | chaos_monkey.py:74-80 | one tick of the loop on the registry agrees with the tick specification |
| Chaos.ChaosMonkey.Start | chaos_monkey.py:67-87 | the loop, with its sleep on the given interval, yields exactly the ticks, directory and escaping ValueError of the run specification `RunSpec` (whose properties `Chaos.RunGate` and `Chaos.RunEnding` state); the registry is unchanged and the monkey ends stopped |
| Chaos.SampleExperiments | chaos_monkey.py:213-258 | six sample experiments, one of each kind, each with a probability in [0, 1] and a positive duration |
| Chaos.SampleParameters | chaos_monkey.py:213-258 | the samples use 2 cores, 50 MB, 500 ms latency, service "web_service" and 20 MB of disk; process hang has no parameters |
| Load.DefaultTotalWeight | load_tester.py:45-54 | the eight default endpoint weights are non-negative and add up to 120 |
| Load.ChoiceIndex | load_tester.py:56-67 | for a draw in [1, total] the chosen index names an endpoint |
| Load.ChoiceIndexIsFirstCovering | load_tester.py:61-65 | the chosen endpoint is the first whose cumulative weight reaches the draw |
| Load.FirstCoveringIsChoice | load_tester.py:61-65 | conversely, any endpoint that is the first to reach the draw is the chosen one |
| Load.ChoiceIndexInterval | load_tester.py:56-67 | with non-negative weights, endpoint i is chosen iff the draw lies in (Cum(i), Cum(i+1)] |
| Load.ChosenDrawsInterval | load_tester.py:56-67 | the draws choosing endpoint i are exactly the integers in (Cum(i), Cum(i+1)] |
| Load.ChoiceFrequency | load_tester.py:56-67 | over the draws 1..total, endpoint i is chosen for exactly weight_i of them |
| Load.WeightedChoice | load_tester.py:56-67 | the accumulator loop returns the path of the specified choice; the fallback after the loop is unreachable |
| Load.CountSuccesses | load_tester.py:81 | the number of successes never exceeds the number of requests |
| Basics.IntToString | load_tester.py:96 | `str` of an integer starts with a minus sign exactly when it is negative, and the digits after it denote the magnitude with no leading zero |
| Basics.NatToString | load_tester.py:96 | the decimal digits of a natural number denote that number; the first digit is '0' exactly for 0, and a text of two or more digits never starts with '0', so 0 is "0" |
| Load.AnsweredPlusErrors | load_tester.py:78-103 | every request leaves either a response time or an error message |
| Load.LoadTester.constructor | load_tester.py:23-54 | a new tester has zeroed counters, empty lists, the given URL and the eight default endpoints |
| Load.LoadTester.MakeRequest | load_tester.py:69-110 | total grows by one and exactly one of successes and failures grows (below 400 is a success); the time or the error is appended to exactly one list; total = successes + failures and times + errors = total are kept; the result carries the status code of an answer and none after a RequestException, and its error is "HTTP <code>" for a failing answer and the exception's message otherwise |
| Load.LoadTester.ResetStats | load_tester.py:133-140 | every counter becomes 0 and both lists empty; the counter invariant holds |
| Load.LoadTester.StartLoadTest | load_tester.py:128-180 | after a reset the counters reflect exactly the planned requests (none unless the thread count is positive); zero threads ends in ZeroDivisionError, any other count in the AttributeError of the missing plot method |
| Load.SuccessRate | load_tester.py:193 | the rate lies in [0, 100]; it is 100 exactly when every request of a non-empty run succeeded and 0 exactly when none did |
| Load.BandsMonotone | load_tester.py:221-228 | the performance, speed and reliability labels (`PerformanceBand`, `SpeedBand`, `ReliabilityBand`, lines 221-228 and 334-350) are monotone: a slower average never gets a better performance or speed label, and a lower success rate never gets a better reliability label |
| Load.BandCutPoints | load_tester.py:334-350 | every cut point of the labels, each as an iff: the performance label (load_tester.py:221-228) and the speed label are the best below 0.1 s, the second in [0.1, 0.5) s, the third in [0.5, 1) s and the worst from 1 s; the reliability label is the best from 99 %, the second in [95, 99) %, the third in [90, 95) % and the worst below 90 % |
| Load.SpeedMatchesPerformance | load_tester.py:343-350 | the final speed grade uses the same cut points as the live performance grade |
| Load.ProgressBar | load_tester.py:254-272 | a zero maximum gives `width` empty, uncoloured cells; otherwise the bar is green exactly above 0.9 of the maximum and red exactly at or below 0.7 |
| Load.ProgressBarCells | load_tester.py:259-271 | for a non-negative value and a positive maximum the bar has exactly `width` cells; the full ones are `min(int(value/max*width), width)`; the bar is all full once the value reaches the maximum |
| Load.Render | load_tester.py:271 | the drawn bar has three code points per cell, as the glyphs are spelled in the file; each of the first `filled` cells holds the full glyph and each remaining cell the empty glyph |
| Load.PercentileIndex | load_tester.py:287-290 | `int(n*p)` is a valid index of a non-empty list for every p below 1 |
| Load.PercentileIndexMonotone | load_tester.py:287-290 | a higher percentile never gets a lower index |
| Load.Insert | load_tester.py:286 | inserting into a sorted list keeps it sorted and adds exactly the new element |
| Load.Sort | load_tester.py:286 | the sorted times are ascending and a permutation of the recorded times |
| Load.MinOf | load_tester.py:283 | the minimum is an element and no element is smaller |
| Load.MaxOf | load_tester.py:282 | the maximum is an element and no element is larger |
| Load.Summarize | load_tester.py:280-353 | with times, the average is their sum over their count and min and max are the smallest and largest time; each percentile is the element of the sorted times at `int(n*p)` (the source's fallbacks never fire); min <= p50 <= p90 <= p95 <= p99 <= max; with no times every figure is 0; the labels follow the rate and the average |
| Load.SortedWithinBounds | load_tester.py:282-295 | any element of the sorted times lies between the minimum and the maximum |
| Load.HistogramStep | load_tester.py:324-325 | counting one more message keeps the histogram exact: distinct keys, multiset counts, and a total one larger |
| Load.ErrorCounts | load_tester.py:323-325 | the error histogram has one key per distinct message, each counting its occurrences, and the counts add up to the number of errors |
| Monitor.CollectAppMetrics | system_monitor.py:106-142 | a connection failure gives status "unreachable", code 0 and no stats; otherwise code and time are copied; a 200 answer with a `status` field records that status and any other answer records "unknown"; stats are kept exactly from a 200 answer of `/stats`, and then they are its body |
| Monitor.Rule | system_monitor.py:670-689 | a threshold rule raises at most one alert |
| Monitor.RuleAlert | system_monitor.py:670-697 | an alert of a threshold rule names its metric and graded value, with critical above the upper cut point and high above the lower one |
| Monitor.OrderedConcat | system_monitor.py:664-725 | joining rule outputs whose rule ranks are in increasing bands keeps them in rule order |
| Monitor.ApplicationAlertsOrdered | system_monitor.py:699-725 | the application alerts come in rule order, at most one per rule |
| Monitor.AlertsOrdered | system_monitor.py:662-730 | all alerts come in rule order (cpu, memory, disk, load, then application), at most one per category |
| Monitor.AlertsJustified | system_monitor.py:662-730 | every alert raised has its rule's condition: the graded value for thresholds (cores defaulting to 1), no connectivity for unreachable, the lower-cased status, or an unknown core count for the error alert |
| Monitor.AlertsComplete | system_monitor.py:662-730 | every rule whose condition holds does raise its alert |
| Monitor.UnreachableIsTheOnlyApplicationAlert | system_monitor.py:700-701 | without connectivity "unreachable" is the only application alert |
| Monitor.CheckAlerts | system_monitor.py:662-730 | the successive appends give exactly the rule-by-rule alert list `AlertsOf`, whose order, justification and completeness the three lemmas above state; an unknown core count hits the TypeError, keeps the alerts so far and adds the error alert |
| Monitor.RaiseThreshold | system_monitor.py:672-675 | one threshold rule appends the alert of its grade to the list, or nothing |
| Monitor.RaiseStatus | system_monitor.py:721-725 | the status rule appends the unhealthy or the degraded alert, or nothing |
| Monitor.StatusAlertNeedsOk | system_monitor.py:111 | a status alert can only come from a 200 answer of `/health` |
| Monitor.StatusIgnoresCase | system_monitor.py:720-725 | statuses that agree once lower-cased raise the same status alert, and a status raises the same alert as its lower-cased form |
| Basics.Lower | system_monitor.py:721 | `.lower()` keeps the length, lower-cases each character in place and leaves no ASCII capital |
| Monitor.Newest | system_monitor.py:164-166 | the kept history is the last min(n, 100) samples in arrival order |
| Monitor.NewestAppend | system_monitor.py:162-166 | truncating after every append keeps the same samples as one truncation at the end |
| Monitor.SystemMonitor.constructor | system_monitor.py:26-29 | a new monitor has an empty history and is not monitoring |
| Monitor.SystemMonitor.RecordSample | system_monitor.py:162-166 | append, then keep the newest 100; the history stays within 100 |
| Monitor.SystemMonitor.MonitorLoop | system_monitor.py:144-175 | while monitoring, the history becomes the newest 100 of the old history plus the samples recorded, all of them for a non-negative interval and only the first for a negative one (its sleep raises again in the handler and ends the thread); when not monitoring, nothing changes |
| Monitor.SystemMonitor.StartMonitoring | system_monitor.py:329-335 | monitoring is on and the loop's samples are recorded as `MonitorLoop` records them |
| Monitor.SystemMonitor.StopMonitoring | system_monitor.py:337-339 | monitoring is off and the history is kept |
| Monitor.ProgressBar | system_monitor.py:278-297 | a zero maximum gives `width` empty, uncoloured cells; otherwise green exactly below half the maximum and red exactly from 0.8 of it |
| Monitor.ProgressBarCells | system_monitor.py:283-296 | for a non-negative value and a positive maximum the bar has exactly `width` cells; the full ones are `min(int(value/max*width), width)`; the bar is all full once the value reaches the maximum |
| Monitor.Render | system_monitor.py:296 | the drawn bar `char * filled + '▱' * (width - filled)` has one code point per cell: the fill glyph in each of the first `filled` cells and '▱' in each later one |
| Monitor.ResponseTimeBandMonotone | system_monitor.py:299-309 | the response-time dot (`ResponseTimeBand`) is monotone in the time: green exactly below 100 ms, yellow exactly in [100, 500) ms, orange exactly in [500, 1000) ms and red exactly from 1000 ms |
| Monitor.RowOf | system_monitor.py:444-465 | a missing system section reads as zero percentages and load; missing stats read as zero counters; present readings and counters are copied; times are in ms and the error rate in percent |
| Monitor.SystemMonitor.PrepareDataframe | system_monitor.py:444-468 | the append loop yields one row per sample of the history, in order, each the row of its sample |
| Demo.ErrorRate | demo_app.py:189 | the error rate is 0 exactly when there is no error, and lies in [0, 1] while errors do not exceed requests |
| Demo.SumSquaresClosedForm | demo_app.py:145-148 | 6 * (sum of i² for i below n) = (n-1)·n·(2n-1) |
| Demo.CpuIntensiveResult | demo_app.py:147-148 | the cpu-intensive sum for 10⁶ is 333332833333500000 |
| Demo.SquareSum | demo_app.py:145-148 | the accumulation loop computes the sum of squares, whose closed form it also meets |
| Demo.FillAndSum | demo_app.py:118-124 | the fill loop collects every row and the summing loop adds up every cell; when every cell is a draw in [0, 1), the total is at least 0 and below the number of cells |
| Demo.MatrixSumBounds | demo_app.py:118-124 | rows of `w` draws in [0, 1) sum to at least 0 and at most, and for a non-empty matrix below, `rows * w` |
| Demo.AppState.constructor | demo_app.py:23-28 | the counters start at 0 and the status at healthy |
| Demo.AppState.Home | demo_app.py:31-40 | one request counted; the answer reports the new count |
| Demo.AppState.HealthCheck | demo_app.py:43-67 | one request counted, no error; degraded and 503 exactly when the draw is below 0.1, healthy and 200 otherwise |
| Demo.AppState.GetData | demo_app.py:70-92 | one request counted; an error and a 500 exactly when the draw is below 0.05 |
| Demo.AppState.SlowEndpoint | demo_app.py:95-109 | one request counted, nothing else changes |
| Demo.AppState.MemoryIntensive | demo_app.py:112-135 | one request counted; the answer is the sum of the matrix |
| Demo.AppState.CpuIntensive | demo_app.py:138-157 | one request counted; the answer is 333332833333500000 |
| Demo.AppState.DatabaseSimulation | demo_app.py:160-179 | one request counted; an error and a 504 exactly when the draw is below 0.08 |
| Demo.AppState.GetStats | demo_app.py:182-196 | the statistics change nothing and report an error rate in [0, 1] |
| Demo.AppState.Serve | demo_app.py:31-196 | every route except `/stats` counts one request; only failing draws of `/api/data` and `/api/database` count an error; errors never exceed requests; a non-200 answer means an error or a degraded health check |
| Demo.AppState.InternalError | demo_app.py:199-206 | the 500 handler counts an error and no request |
| Demo.AppState.ServiceUnavailable | demo_app.py:209-216 | the 503 handler counts an error and no request |
| Demo.AppState.BackgroundStep | demo_app.py:228-230 | a degraded service recovers exactly when the draw is below 0.7; a healthy one stays healthy; counters untouched |
| Demo.AppState.BackgroundTask | demo_app.py:219-233 | after several passes the service is healthy iff it started healthy or some draw was below 0.7 |
| Dashboard.Started | streamlit_app.py:115-150 | a tracked name returns true and changes nothing; an unknown name or a failed launch returns false and changes nothing; a launched known name is tracked with its script; success iff tracked; the registry stays well-formed |
| Dashboard.Stopped | streamlit_app.py:152-159 | an untracked name, or a terminate that raises, changes nothing; otherwise exactly that entry is removed |
| Dashboard.StopUndoesStart | streamlit_app.py:115-159 | stopping a component just started gives back the registry before it |
| Dashboard.StartIsIdempotent | streamlit_app.py:118-119 | starting a running component again changes nothing and reports success |
| Dashboard.StreamlitChaosDemo.constructor | streamlit_app.py:66-71 | a new dashboard tracks no process and targets localhost:8080 |
| Dashboard.StreamlitChaosDemo.StartComponent | streamlit_app.py:115-150 | the registry and the result agree with the start specification; the registry stays well-formed |
| Dashboard.StreamlitChaosDemo.StopComponent | streamlit_app.py:152-159 | the registry agrees with the stop specification |
| Dashboard.CheckDemoAppStatus | streamlit_app.py:78-92 | healthy iff a 200 whose body parses; degraded iff another status code; unreachable iff an exception or an unparsable body; only healthy reports elapsed×1000 and data; only unreachable carries an error |

## Left out

- Threads, sleeps and clocks are left out. The cpu burner threads, the load workers, the monitor thread and the background thread become sequential steps. Sleeps become the `Hold` phase; wall-clock loop bounds become a finite list of inputs. The load tester's unlocked shared counters are modelled for sequential calls only.
- `random`, `psutil`, `requests`, `subprocess` and file-system calls are inputs. So are the JSON payload values that only echo random data, such as ids, record counts and timestamps.
- The cpu burner's `self.running` check and its busy loop are not modelled. Only the start and join bookkeeping is.
- The "unknown chaos type" branch of `_execute_experiment` is left out. The closed Dafny datatype makes it unreachable.
- `ChaosMonkey.threads` is never filled by the source, so the joins in `stop` are not modelled.
- An interrupt during the `time.sleep(interval)` of `start` is modelled by the inputs running out.
- The load tester's live printing, `detailed_stats`, the request rate and the plotting are left out. So is the top-5 ordering of the error table; only the histogram itself is modelled.
- KeyboardInterrupt handling in `start_load_test` is left out. It only clears `running` before the same ending.
- Output formatting is left out: `:.1f`-style rounding, ANSI colour escapes, emoji and the `clear` call. Bar colours are a `Color` value.
- Floating point is modelled as exact rationals (`real`). IEEE rounding is not modelled.
- Lower-casing (`Basics.Lower`) covers ASCII letters only.
- Monitor.CheckAlerts: its contract ties the method to `AlertsOf`. The ordering, completeness and justification are proved as lemmas about `AlertsOf` rather than restated on the method.
- The alert texts are the `Alert` datatype rather than formatted strings.
- Plots, data frames, HTML reports, the performance summary and the Streamlit pages are rendering and I/O, so they are left out.
- A body that does not parse as JSON in `collect_app_metrics` is left out. Whether `requests` classes that error as a RequestException depends on its version.
- The process objects held by the dashboard registry are reduced to a pid and the script name. The hard-coded working directory is left out.
- Demo.AppState.InternalError and Demo.AppState.ServiceUnavailable: no `Valid()` is stated for them. They count an error without a request, and Flask calls them only for raised errors or aborts, which no modelled route produces. A returned `(body, 500)` tuple does not trigger them.
- The degraded-status alert can never come from this demo service: its degraded health answer carries a 503, and the monitor reads the status only from a 200 answer. This is noted, not proved, beyond `Monitor.StatusAlertNeedsOk`.
