# Python environment benchmark — verified model of its decision and formatting rules

The benchmark compares four Python dependency managers (make, poetry, pip-tools, uv) on
installation speed, reproducibility and developer experience (DX), and writes a Markdown
report. This project models, in Dafny, the deterministic rules inside that harness:

- **Reproducibility tester** (`reproducibility.dfy`, module `Reproducibility`): the loop that
  runs a tool's install script a number of times, fingerprints each resulting virtualenv, and
  gives the verdict "reproducible" exactly when every fingerprint is present and all are equal;
  the per-run `{returncode, error}` records; `main`'s one report per tool.
- **DX evaluator** (`evaluate_dx.dfy`, module `EvaluateDx`, with the substring test in
  `text.dfy`): the six-scenario table, `run_command`'s mapping from a process outcome to a
  record (finished, timed out, raised), environment setup, and the scenario loop with its skip
  rule, activation prefix, stderr-on-failure and 500-character output truncation.
- **Report generator** (`report_series.dfy`, `report_table.dfy`, `report_summary.dfy`): the
  per-tool series extracted from the three result documents (installation times sorted
  ascending, reproducibility flags 0/1, DX success percentages), the detailed DX Markdown
  table, the fastest/slowest and best/worst callouts, the reproducible / non-reproducible
  split, and the 1-based speed and DX ranks of the conclusion section.
- **From evaluator to report** (`pipeline.dfy`): the DX document built from evaluator results,
  and what the report makes of it when no tool's setup succeeds.

Processes are not run: an install or scenario command is represented by its outcome
(`Outcome` = finished with code/stdout/stderr, timed out, or raised with a message), supplied
as a parameter indexed by scenario position; a reproducibility iteration is represented by an
`Observation` (install process, whether `.venv` exists, the freeze listing process). The MD5
hex digest is the uninterpreted parameter `digest`. Result documents are given as values, a
JSON object as a sequence of (key, value) pairs in insertion order, an optional key as an
`Option`. The loops modelled are methods with loop invariants: the tester's iteration loop,
the scenario loop, the DX series loop and the DX table loop are proved equal to specification
functions about which the properties are proved as lemmas; the installation series,
reproducibility series and `main` loops state their results directly in their postconditions.
Python floats (installation times, success rates) are modelled as exact reals.

## Model

| member | source | states |
|---|---|---|
| Reproducibility.RunCommand | test_reproducibility.py:17-31 | the record holds the command and the process's return code, stdout and stderr |
| Reproducibility.EnvHash | test_reproducibility.py:34-51 | no fingerprint exactly when the virtualenv is missing or the freeze command exits non-zero; otherwise the digest of the freeze listing |
| Reproducibility.IsReproducible | test_reproducibility.py:91 | a true verdict means at least one hash, none missing, and all equal to the first |
| Reproducibility.ReproducibleIff | test_reproducibility.py:91 | the verdict holds iff the hash list is non-empty, has no missing hash and all entries are equal |
| Reproducibility.VerdictExamples | test_reproducibility.py:91 | `[h,h,h]` is reproducible; `[h,h,None]`, three distinct hashes, `[None,None,None]` and `[]` are not |
| Reproducibility.Condense | test_reproducibility.py:99-104 | the record copies the return code; its error is stderr exactly when the code is non-zero, otherwise absent |
| Reproducibility.CondenseAll | test_reproducibility.py:99-105 | one record per run, in run order, each the condensed run |
| Reproducibility.TestToolReproducibility | test_reproducibility.py:54-106 | the loop's report equals the report specification for the tool, iteration count and observations |
| Reproducibility.ReportShape | test_reproducibility.py:65-106 | the report names the tool, has exactly `iterations` hashes and records, the k-th being iteration k's fingerprint and condensed install run |
| Reproducibility.ZeroIterationsNotReproducible | test_reproducibility.py:65-91 | with zero iterations the hash list is empty and the tool is not reproducible |
| Reproducibility.ReportVerdict | test_reproducibility.py:34-91 | reproducible iff at least one iteration, every iteration left a virtualenv whose freeze succeeded, and all freeze listings have the same digest |
| Reproducibility.RunAll | test_reproducibility.py:109-114 | one entry per tool of `TOOLS`, in that order, keyed by the tool and holding its 3-iteration report |
| Reproducibility.ToolsDistinct | test_reproducibility.py:14 | the tool names are pairwise distinct, so no report overwrites another |
| EvaluateDx.RunCommand | evaluate_dx.py:78-114 | success iff return code 0; a timeout gives code -1, empty stdout and the fixed timeout message; an exception gives code -1 and its message when captured, and propagates otherwise |
| EvaluateDx.PrepareEnvironment | evaluate_dx.py:117-131 | runs the tool's install script; succeeds exactly when it finishes with code 0 |
| EvaluateDx.CommandFor | evaluate_dx.py:159-162 | a scenario has a command for a tool iff the table has a non-empty entry for it, and then it is that entry |
| EvaluateDx.Activated | evaluate_dx.py:164-167 | the command gets the activation prefix iff it contains `pip-compile` or `pip install` and the tool is not poetry; otherwise it is unchanged |
| Text.Contains | evaluate_dx.py:165 | Python's `in` on strings: the empty pattern is always contained, and a contained pattern is no longer than the text |
| Text.ContainsIffOccurs | evaluate_dx.py:165 | the substring test holds iff the pattern occurs at some position |
| EvaluateDx.ActivationExamples | evaluate_dx.py:164-167 | `uv pip install pyyaml` for uv is prefixed; any poetry command is left unchanged |
| EvaluateDx.TruncateOutput | evaluate_dx.py:180 | output of at most 500 characters is kept; longer output becomes its first 500 characters followed by `...` |
| EvaluateDx.TruncateIdempotent | evaluate_dx.py:180 | truncating twice equals truncating once, and a truncated output has at most 503 characters |
| EvaluateDx.ScenarioRecord | evaluate_dx.py:172-181 | the record carries the scenario's name and description, the command as run, success and code of the run, stderr exactly on failure, and the truncated stdout |
| EvaluateDx.ScenarioRun | evaluate_dx.py:155-181 | a scenario yields no record exactly when the tool has no command for it |
| EvaluateDx.EvaluateToolDx | evaluate_dx.py:134-187 | the loop's result equals the evaluation specification: setup error and no scenarios, or the records of the scenarios that have a command |
| EvaluateDx.SetupShortCircuit | evaluate_dx.py:145-152 | a failed setup yields its stderr as `setup_error` and an empty scenario list; a successful one yields no setup error |
| EvaluateDx.CollectedInOrder | evaluate_dx.py:155-183 | the m-th record is the run of the m-th scenario that has a command for the tool; these positions strictly increase, and a scenario is skipped only when the tool has no command for it, so there is at most one record per scenario |
| EvaluateDx.AtMostSixScenarios | evaluate_dx.py:155-183 | at most 6 scenario records, the table size |
| EvaluateDx.EveryScenarioCoversKnownTools | evaluate_dx.py:14-75 | every scenario has a command for poetry, piptools, uv and make |
| EvaluateDx.KnownToolsRunAllScenarios | evaluate_dx.py:14-75 | for these four tools a successful setup yields exactly 6 records, in table order |
| EvaluateDx.AllCollected | evaluate_dx.py:155-183 | when every scenario has a command, every scenario is recorded, in order |
| EvaluateDx.ScenarioRunFields | evaluate_dx.py:172-181 | a recorded scenario has its table name, success iff code 0, and an error exactly on failure |
| EvaluateDx.TimedOutScenario | evaluate_dx.py:96-103 | a timed-out scenario is recorded as failed with code -1, the timeout message as error and empty output |
| ReportSeries.Timings | generate_report.py:35-37 | one (tool, time) pair per entry of the "results" object |
| ReportSeries.InsertByTime | generate_report.py:40 | insertion adds the pair and keeps all others |
| ReportSeries.InsertKeepsSorted | generate_report.py:40 | inserting into a list sorted by time keeps it sorted |
| ReportSeries.SortByTime | generate_report.py:40-42 | the result is sorted by ascending time and a permutation of the input |
| ReportSeries.InstallationSeries | generate_report.py:27-67 | no data for an absent or empty document; otherwise tools and times sorted by ascending time, a permutation of the document's pairs with a missing time read as 0 |
| ReportSeries.ReproducibilitySeries | generate_report.py:70-96 | no data for an absent or empty document; otherwise every tool in order with flag 1 iff its "reproducible" is true, 0 otherwise, a missing key included |
| ReportSeries.SuccessCount | generate_report.py:113 | the count is at most the number of scenarios, equals it iff all succeeded, and is 0 iff none did |
| ReportSeries.SuccessRate | generate_report.py:113-114 | the rate lies in [0,100], is 100 iff every scenario succeeded and 0 iff none did |
| ReportSeries.DxRates | generate_report.py:104-115 | tools and rates have equal length |
| ReportSeries.DxSeries | generate_report.py:99-141 | no data for an absent or empty document; otherwise the loop's series equals the rate specification |
| ReportSeries.WithScenariosFacts | generate_report.py:107-111 | the positions of the tools with a non-empty scenario list strictly increase, and a position is skipped only when its tool has no scenarios |
| ReportSeries.DxRatesInOrder | generate_report.py:107-115 | the m-th tool of the series is the tool at the m-th position with a non-empty scenario list, and its rate is that tool's success rate |
| ReportTable.Line | generate_report.py:158 | one Markdown table line: it starts with `\| `, ends with ` \|` and a newline, and holds the four cells and 14 framing characters |
| ReportTable.ScenarioRow | generate_report.py:155-158 | the tool cell is filled only on a block's first row, with the tool's name; a missing name or description shows as empty; the row is marked passed exactly when "success" is true |
| ReportTable.ToolRows | generate_report.py:154-158 | one row per scenario of the tool |
| ReportTable.FormatDxResultsTable | generate_report.py:144-160 | the text built line by line equals the table specification |
| ReportTable.TableFraming | generate_report.py:146-150 | an absent or empty document gives the empty string; any other starts with the header and separator lines |
| ReportTable.RowCount | generate_report.py:152-158 | the table has exactly one row per scenario across all tools |
| ReportTable.RowAt | generate_report.py:152-158 | the row for scenario i of tool t sits after the rows of earlier tools; its tool cell is the name only when i = 0; name and description default to empty; the icon is ✅ iff success is true |
| ReportSummary.IndexOf | generate_report.py:309 | `list.index`: the first position holding the value |
| ReportSummary.ArgMax | generate_report.py:270 | `np.argmax`: the first position of a largest value |
| ReportSummary.ArgMin | generate_report.py:271 | `np.argmin`: the first position of a smallest value |
| ReportSummary.SpeedCallouts | generate_report.py:224-225 | fastest is the first entry and slowest the last; on a sorted series they have the least and greatest time |
| ReportSummary.Select | generate_report.py:245-246 | the selection is no longer than the series and holds a tool exactly when some position carries that tool with the flag |
| ReportSummary.ReproducibleTools | generate_report.py:245 | a tool is listed exactly when some entry for it has flag 1 |
| ReportSummary.NonReproducibleTools | generate_report.py:246 | a tool is listed exactly when some entry for it has flag 0 |
| ReportSummary.PickedPositions | generate_report.py:245-246 | the picked positions carry the flag, strictly increase, and include every position carrying it |
| ReportSummary.SelectInOrder | generate_report.py:245-246 | the m-th selected tool is the tool at the m-th picked position, so the selection keeps series order |
| ReportSummary.PartitionOfTools | generate_report.py:245-246 | with 0/1 flags the reproducible and non-reproducible lists together hold every tool exactly as often as the series |
| ReportSummary.BestWorst | generate_report.py:270-274 | best and worst are tools of the series with the greatest and least rate |
| ReportSummary.DxCalloutsAsWritten | generate_report.py:263-274 | the report raises exactly when DX data is present but holds no tool |
| ReportSummary.DxCallouts | generate_report.py:263-274 | callouts are omitted exactly when there is no DX data or no tool in it; otherwise they bound every rate |
| ReportSummary.EmptyScenariosBreakDxCallouts | generate_report.py:263-271 | for a non-empty DX document in which every tool has an empty scenario list, the DX series is empty, the report as written raises and the intended one omits the callouts |
| ReportSummary.SpeedRank | generate_report.py:309 | the rank lies in 1..n, the entry at that rank is the tool, and no earlier entry is the tool |
| ReportSummary.SpeedRankFacts | generate_report.py:309-311 | the speed rank lies in 1..n, names the tool, no tool ranked ahead is slower, and it is 1 iff the tool is the fastest |
| ReportSummary.InsertDesc | generate_report.py:323 | the order grows by one entry and every entry stays a position of the series |
| ReportSummary.InsertDescPermutes | generate_report.py:323 | insertion adds the new position and keeps every other entry |
| ReportSummary.InsertDescKeepsOrder | generate_report.py:323 | inserting a position larger than every entry keeps the order descending by rate, with ties in ascending position |
| ReportSummary.RankOrder | generate_report.py:323 | the order has n entries, each a position of the series |
| ReportSummary.RankOrderPermutes | generate_report.py:323 | the order is a permutation of the positions 0..n-1 |
| ReportSummary.RankOrderEntries | generate_report.py:323 | the order holds exactly the positions below n |
| ReportSummary.RankOrderSorted | generate_report.py:323 | the order is by descending rate, ties in ascending position (Python's sort is stable) |
| ReportSummary.DxRank | generate_report.py:323 | the DX rank lies in 1..n |
| ReportSummary.RankPositions | generate_report.py:323 | in a descending, tie-stable order a higher rate sits earlier, and so does the earlier of two tools with equal rates |
| ReportSummary.DxRankFacts | generate_report.py:323 | a strictly higher rate gives a strictly smaller rank; equal rates rank in series order |
| ReportSummary.BestDxToolRanksFirst | generate_report.py:323 | the tool named Best DX Tool has DX rank 1 |
| ReportSummary.Conclusion | generate_report.py:304-327 | each part is present iff the tool is in that series; the speed part is the tool's `SpeedRank` out of n with the time at that rank; the reproducibility answer is the flag of the tool's first entry; the DX part is the tool's `DxRank` out of n with the tool's own rate |
| ReportSummary.ConclusionDxOrder | generate_report.py:320-324 | in the conclusion entries of a series without repeated names, each DX part shows its own tool's rate, a higher rate shows a smaller rank, equal rates rank in series order, and the best DX tool shows rank 1 |
| Pipeline.ToEntry | evaluate_dx.py:172-181 | the document entry keeps every scenario's name, description and success |
| Pipeline.DxDocument | evaluate_dx.py:134-187 | one entry per evaluated tool, under its name, in order, each tool evaluated with its own setup and scenario outcomes |
| Pipeline.AllSetupsFailing | generate_report.py:263-271 | if no tool's setup succeeds, the report as written raises on the resulting document while the intended one omits the DX callouts |

## Left out

- Process execution, the 120-second timeout mechanism, temporary directories, file copying and `chmod`: outcomes are parameters (`Outcome`, `Observation`).
- The MD5 digest of `pip freeze | sort` is the uninterpreted parameter `digest`.
- JSON loading and saving, console output, chart drawing, platform and date strings, float formatting, the static prose of the report, and writing the report file.
- The code that writes `dx_evaluation_results.json` is not part of this model; `Pipeline.DxDocument` assumes it stores each tool's `evaluate_tool_dx` result under the tool's name.
- The speed-difference ratio `times[-1]/times[0]` (generate_report.py:226): float division, not modelled.
- The assembly of the report text around the tables, callouts and conclusion entries, including the loops that write the installation-time, reproducibility and DX success-rate tables (generate_report.py:221-222, 242-243, 267-268) and the conclusion loop itself (generate_report.py:304-327). The values the table loops write are the series of `ReportSeries.InstallationSeries`, `ReportSeries.ReproducibilitySeries` and `ReportSeries.DxSeries`; the values each conclusion iteration writes are modelled by `ReportSummary.Conclusion`.
- Python floats are modelled as exact reals: installation times, and success rates computed as `count / len * 100`. Rounding is not modelled, so an ordering or tie among rates or times that depends on floating-point rounding (in `np.argsort`, `np.argmax`/`np.argmin` or the DX rank sort) may differ from the model.
- The conclusion loop iterates a Python set, so its order is unspecified; `ReportSummary.Conclusion` models one tool's entry.
- `test_benchmark.py` (timing and subprocess plumbing) is not part of this model.
- ReportSeries.InstallationSeries: states sortedness and permutation only, not the order of tools with equal times, because `np.argsort`'s default sort is not stable.
- ReportSummary.SpeedCallouts: requires a non-empty series; as written the report would also fail on an installation document without results (the tuple guard at generate_report.py:217 is always true), but the benchmark always writes four results.
- JSON values of unexpected types (a non-boolean "success", a non-numeric time) are not modelled: fields are `Option`s of the expected type, with Python truthiness reduced to `Some(true)`.

## Findings

| source | as written | input that shows it | evidently intended | confidence | as-written member | corrected member |
|---|---|---|---|---|---|---|
| generate_report.py:263 | `if dx_data:` tests the returned `(tools, success_rates)` pair, which is truthy even when both lists are empty, so `np.argmax([])` at line 270 raises | a non-empty DX document in which every tool's "scenarios" list is empty, as `evaluate_tool_dx` returns for every tool whose setup fails (evaluate_dx.py:148-152); proved in ReportSummary.EmptyScenariosBreakDxCallouts and Pipeline.AllSetupsFailing | skip the best/worst DX callouts when no tool has scenarios | medium; not executed | ReportSummary.DxCalloutsAsWritten | ReportSummary.DxCallouts |
