# interop-API status engine in Dafny

This project models the status engine behind the `/interop/` dashboard of
interop-API. For every sequencer (MiSeq, NextSeq, NovaSeq) under the storage
root, the engine finds the latest run folder. It then reads the run's
completion markers and the numbers the Illumina InterOp library extracts
from the folder, and it builds one result dictionary per sequencer. That
dictionary holds:

- the status ("Idle", "Running", "Initializing", "Finalizing",
  "Completed on"), the completion date and the error text;
- the run information and the per-read summary;
- the formatted metrics and the Highcharts payload of the Q-score chart.

The repository keeps several revisions of this engine side by side. Each
one is modelled as its own module, and they are not merged:

| module | revision |
|---|---|
| `StatusMain`, `StatusInterop`, `Format`, `RunFiles`, `RunFolders` | `API/status/` (main.py and lib/) |
| `RtStatus`, `RtRunfiles`, `RtRunfolders` | `API/api/test_api/` (rt_status.py and rt_methods/) |
| `RealTimeStatus`, `RealTimeFormat` | `API/api/functions/real_time_status.py` |
| `Running` | the top-level `running.py` script |
| `SavData`, `ParseInterop`, `SummaryTable` | the histogram and summary-table code of `API/SAV_data/generate_SAV_data.py`, `API/api/functions/parse_interop.py` and the top-level `parse_interop.py` |

Some code is the same in several revisions. That code is modelled once:

- `LatestRuns` is the `latest_runs` loop of real_time_status.py and
  running.py.
- `Qscore` is the histogram post-processing of every `get_qscore_data`.
- `RunStatus` is the final status rule.
- `CompletionTime` trims a MiSeq `CompletionTime`.

The helper modules model Python values and operations:

- `Text`: `str.split`, `in`, `lower`, `str()` and `int()`.
- `Dicts`: an insertion-ordered dict.
- `Files`: `os.scandir` entries and `max(..., key=os.path.getmtime)`.
- `Records`: the result dictionary.
- `Chart`: the chart payload.
- `Platform`: the sequencer-name tests.

The filesystem, the XML files and InterOp are not executed. They come in as
values:

- a directory listing is a sequence of entries with their modification
  times;
- `os.walk` is a function from a directory to the paths it visits;
- a completion file is its parsed node texts, or `None` when it cannot be
  parsed; a node text is itself optional, because an element without text
  reads as `None`;
- InterOp's results are plain numbers and bars.

Loops of the source are methods with loop invariants. Each method is proved
equal to a fold function, and the lemmas state what the fold computes.

Where the code and the documented design differ, the model follows the code:

- An exception in one run's iteration (a completion file that cannot be
  read, a MiSeq time without 'T', a short tracking-file name) escapes the
  loop over the latest runs. The whole call then fails, and no partial
  dictionary is returned.
- `get_sequencer_rootdir` records the parent of the first path in the walk
  that matches the run-folder pattern. That is not necessarily the deepest
  such ancestor.
- real_time_status.py scans the completion files before it tests for
  `RunInfo.xml`. A broken marker therefore raises even for a run without
  `RunInfo.xml`.
- real_time_status.py writes the cluster density unit as `/mmÂ²` (a
  mis-encoded `/mm²`). That text is kept as written. `API/status/lib/interop.py`
  writes `/mm²`.
- The test_api NovaSeq split writes both sides unconditionally, so a bay
  without runs makes `max()` raise rather than being omitted. The later
  `API/status/lib/runfolders.py` checks each side first.
- running.py sets its Running status as `'Running - current cycle :' +
  str(last_cycle)`, with no space after the colon. This is kept.

## Model

| member | source | states |
|---|---|---|
| Text.Lower | API/status/lib/runfolders.py:82 | `lower()` keeps the length and lowers each ASCII letter in place |
| Text.HasMeans | API/api/functions/real_time_status.py:256 | the executable `in` test on strings holds exactly when the text occurs as a contiguous block |
| Text.FindSpec | API/api/functions/real_time_status.py:269 | the search reports the first occurrence of the separator, and reports none exactly when there is none |
| Text.Split | running.py:27 | `str.split` always yields at least one field |
| Text.JoinSplit | API/status/lib/runfolders.py:53 | joining the fields of a split with the separator gives the string back |
| Text.SplitParts | running.py:27 | a split yields two or more fields exactly when the separator occurs |
| Text.SplitWithoutSep | running.py:30 | a string without the separator splits into itself |
| Text.SplitAtSep | running.py:27 | splitting peels off the text before the first occurrence as the first field |
| Text.SplitAtFirst | API/api/test_api/rt_methods/runfiles.py:92 | on a one-character separator, the text before it is the first field when it does not contain that character |
| Text.NatToString | running.py:61 | `str()` of a natural number is a non-empty string of decimal digits |
| Text.ParseNatToString | running.py:61 | `int(str(n)) == n`: reading the digits back gives the number |
| Text.Repeat | API/api/functions/real_time_status.py:82-83 | `[x] * n` has n copies of x, and none when n is negative |
| Text.Range | API/api/functions/real_time_status.py:44 | `range(lo, hi + 1)` lists lo..hi in order and holds exactly those integers |
| Files.Subdirs | API/api/functions/real_time_status.py:257 | the directory filter keeps at most the entries it is given |
| Files.SubdirsMembers | API/api/functions/real_time_status.py:257 | the entries kept are exactly the directories |
| Files.PlainFiles | running.py:24 | the file filter keeps exactly the entries that are not directories |
| Files.MaxByMtime | API/api/functions/real_time_status.py:258 | `max(..., key=getmtime)` picks an index of the list |
| Files.MaxByMtimeSpec | API/api/functions/real_time_status.py:258 | no entry is newer than the one picked, and every earlier entry is strictly older (the first maximum wins) |
| Dicts.PutSpec | API/api/functions/real_time_status.py:259 | `d[k] = v` keeps the keys distinct and gives the dictionary `d` with k mapped to v |
| Dicts.PutKeys | API/api/functions/real_time_status.py:259 | after `d[k] = v` the keys are the old keys plus k |
| Dicts.PutDistinct | API/status/lib/runfolders.py:87-92 | an assignment never duplicates a key |
| Dicts.PutAllDistinct | API/status/main.py:97-99 | assigning the entries of a dict with distinct keys one by one rebuilds that dict in its order |
| Dicts.AssignedFails | API/api/functions/real_time_status.py:263-315 | the loop that assigns each outcome raises exactly when some outcome is an exception |
| Dicts.AssignedValue | API/api/functions/real_time_status.py:263-315 | when no outcome raises, the result holds each key with its outcome, in order and without repeats |
| Dicts.AssignedFailureSticks | API/api/functions/real_time_status.py:263-315 | once an iteration has raised, later iterations change nothing |
| Dicts.AssignNext | API/api/functions/real_time_status.py:295-315 | one iteration of the assigning loop gives the state after that iteration, and a raise is the final state |
| Chart.Envelope | API/api/functions/real_time_status.py:37-54 | the x axis labels are 1..max_x_label (none when it is below 1), with the given series and chart type |
| Records.Record.Put | API/api/functions/real_time_status.py:313 | `result[key] = v` changes that one key |
| Records.Record.Merge | API/api/functions/real_time_status.py:303-306 | a collector's writes overwrite their keys and leave the others |
| Records.ParamWrites | API/status/lib/runfiles.py:21-80 | run_parameters sets exp_name and reagents and no other key |
| Qscore.Xs | API/status/lib/interop.py:172 | the labels of the bars, in bar order |
| Qscore.Heights | API/status/lib/interop.py:175 | the `values` dictionary has exactly the bar labels as keys |
| Qscore.BarWidths | API/status/lib/interop.py:176 | the `widths` dictionary has exactly the bar labels as keys |
| Qscore.LastBarWins | API/status/lib/interop.py:170-176 | the last bar at a label decides both its value and its width |
| Qscore.FillZeros | API/status/lib/interop.py:178-181 | after the fill, the keys are the old keys plus 1..int(xmax) |
| Qscore.FillZerosValues | API/status/lib/interop.py:179-181 | the fill keeps existing values and writes 0 only at missing labels |
| Qscore.SortedDistinct | API/status/lib/interop.py:184 | `sorted(d.items())` lists each key once, strictly ascending |
| Qscore.SortedUnique | API/status/lib/interop.py:184 | two strictly ascending lists with the same members are equal |
| Qscore.Lookup | API/status/lib/interop.py:188-189 | the values listed follow the sorted keys one for one |
| Qscore.Labels | API/status/lib/interop.py:184-188 | `x_labels` is strictly ascending and holds the bar labels, plus 1..int(xmax) when filled |
| Qscore.AddBars | API/status/lib/interop.py:171-176 | the inner loop keeps both dictionaries equal to those of the bars seen so far |
| Qscore.CollectBars | API/status/lib/interop.py:170-176 | the double loop over the bar series builds the dictionaries of all bars |
| Qscore.FillMissing | parse_interop.py:137-140 | the fill loop zero-fills the values, and the widths too when that revision fills them |
| Qscore.Collect | API/status/lib/interop.py:168-190 | the post-processing returns the collected histogram of the flattened bars |
| Qscore.Observed | API/status/lib/interop.py:185 | the labels of the widths are the bar labels, strictly ascending |
| Qscore.DictionariesAreLastBar | API/status/lib/interop.py:175-176 | a dictionary entry is the height or width of the last bar at that label |
| Qscore.FilledIsLastBar | API/status/lib/interop.py:175-181 | after the fill, every value is the last bar's height at its label, or 0 |
| Qscore.CollectedData | API/status/lib/interop.py:184-189 | `data` lines up with `x_labels`, and each value is the last bar's height at its label |
| Qscore.CollectedWidths | API/status/lib/interop.py:185-190 | `widths` has one entry per observed label, each the last bar's width there |
| CompletionTime.TrimCompletionTime | API/api/test_api/rt_methods/runfiles.py:92-94 | trimming fails exactly when the text has no 'T' (`dt[1]` raises), and otherwise gives at least the three-space separator |
| CompletionTime.HoursMinutesOf | API/api/test_api/rt_methods/runfiles.py:94 | `':'.join(s.split(':', 2)[:2])` keeps HH:MM of HH:MM:SS |
| CompletionTime.TrimAtT | API/api/test_api/rt_methods/runfiles.py:92-94 | with one 'T', the date part is kept and the time is cut at its first '.' |
| CompletionTime.TrimIsoTime | API/api/functions/real_time_status.py:289-292 | an ISO date-time D'T'HH:MM:SS.f becomes D, three spaces, HH:MM |
| RunStatus.FinalStatus | API/status/main.py:123-126 | a last cycle of 0 gives Initializing; otherwise a marker status other than Idle stays, and Idle becomes Running exactly when the cycles differ |
| RunStatus.MarkerSurvives | API/api/functions/real_time_status.py:308-311 | Running only ever comes from Idle, and a completed or finalizing run keeps its status unless its last cycle is 0 |
| RunStatus.InitializingSaysInit | API/api/test_api/rt_status.py:91 | an Initializing status passes the `'init' in status.lower()` test |
| RunStatus.IdleSaysNoInit | API/status/main.py:119 | an Idle status does not pass it |
| RunFiles.CheckCompletionFiles | API/status/lib/runfiles.py:83-114 | a date is set exactly when the platform's marker exists (RTAComplete on MiSeq, CopyComplete elsewhere); a date means Completed on; no date means Finalizing when RTAComplete exists off MiSeq, else the status passed in |
| RunFiles.MiSeqIgnoresCopyComplete | API/status/lib/runfiles.py:102-112 | on MiSeq, CopyComplete.txt changes nothing and Finalizing never occurs |
| RunFiles.MarkerPrecedence | API/status/lib/runfiles.py:105-112 | the full marker beats the partial one, and with neither marker the status is unchanged |
| RtRunfiles.CheckCompletionFiles | API/api/test_api/rt_methods/runfiles.py:66-107 | fails exactly when an existing completion file of the name's platform raises: a RunCompletionStatus.xml that cannot be read or has no CompletionStatus text (`.lower()` on `None`), a CompletedJobInfo.xml that cannot be read, has no CompletionTime text (`.split` on `None`) or a text without 'T'; each with its exception; otherwise the date is the last one written (NovaSeq's RTAComplete.txt, else MiSeq's trimmed CompletionTime or its RTAComplete.txt, else NextSeq's file stamp, else empty), the status is Completed on when a date was written and the status passed in when none was |
| RtRunfiles.CompletionDateSet | API/api/test_api/rt_methods/runfiles.py:72-105 | a date is set exactly when one of the name's platforms finds its marker |
| RtRunfiles.NextSeqFileCompletes | API/api/test_api/rt_methods/runfiles.py:74-85 | on NextSeq, RunCompletionStatus.xml with a CompletionStatus text completes the run, whatever that text says |
| RtRunfiles.MiSeqJobInfoDate | API/api/test_api/rt_methods/runfiles.py:87-94 | on MiSeq, CompletedJobInfo.xml wins over RTAComplete.txt, and an ISO time gives D, three spaces, HH:MM |
| RtRunfiles.MiSeqJobInfoRaises | API/api/test_api/rt_methods/runfiles.py:87-92 | on MiSeq, an existing CompletedJobInfo.xml that cannot be read or has no CompletionTime text raises, even with RTAComplete.txt present |
| RtRunfiles.NovaSeqRtaCompletes | API/api/test_api/rt_methods/runfiles.py:100-105 | on NovaSeq, RTAComplete.txt gives Completed on with its time, unless the NextSeq test has already raised |
| RtRunfiles.UnknownPlatform | API/api/test_api/rt_methods/runfiles.py:72-107 | a name of none of the three platforms keeps its status, with no date |
| RunFolders.Paths | API/status/lib/runfolders.py:50 | `[f.path for f in ...]` keeps the entries' paths in order |
| RunFolders.GetSequencerRootdir | API/status/lib/runfolders.py:31-61 | the loop over the top-level directories computes the fold of the per-directory walks |
| RunFolders.WalkOne | API/status/lib/runfolders.py:52-59 | the inner walk with its three breaks gives the fold over the visited paths |
| RunFolders.ScanWalkSpec | API/status/lib/runfolders.py:52-59 | one walk adds nothing, or adds exactly the parent of its first matching path, and only while below seq_nb and not already listed; conversely, below seq_nb a first match whose parent and earlier parents are unlisted is always added |
| RunFolders.ScanWalkFinds | API/status/lib/runfolders.py:52-59 | below seq_nb, a walk whose first match is a given path (no earlier path matches or has a listed parent) appends exactly that path's parent |
| RunFolders.RootsSpec | API/status/lib/runfolders.py:45-61 | the roots never repeat, never exceed seq_nb, and each is the parent of a matching path walked from a directory naming a listed sequencer; and every directory naming a listed sequencer whose walk meets a first match while the roots so far are below seq_nb contributes that match's parent |
| RunFolders.RootsGrowByOne | API/status/lib/runfolders.py:50-59 | each top-level directory adds at most one root at the end, and a directory naming no listed sequencer adds none |
| RunFolders.LatestRunfolder | API/status/lib/runfolders.py:19-28 | `max()` fails exactly on an empty list |
| RunFolders.LatestRunfolderSpec | API/status/lib/runfolders.py:28 | the folder picked is one of the list, no folder is newer, and no earlier one is as new |
| RunFolders.SeqKey | API/status/lib/runfolders.py:79 | `split('/')[3]` fails exactly when the path has fewer than four '/'-fields |
| RunFolders.Side | API/status/lib/runfolders.py:83-84 | the side filter keeps at most the runs it is given |
| RunFolders.SideMembers | API/status/lib/runfolders.py:83-84 | the runs kept for a side are exactly those whose last '_'-field starts with the side letter |
| RunFolders.LatestAfter | API/status/lib/runfolders.py:75-92 | an earlier failure is kept; otherwise one more root fails exactly when it has run folders but no fourth '/'-field |
| RunFolders.GetSequencerLatestRun | API/status/lib/runfolders.py:64-94 | the loop over the roots computes the fold of the per-root steps |
| RunFolders.NextRoot | API/status/lib/runfolders.py:75-92 | one iteration gives the state after that root, and a raise is the final state |
| RunFolders.VisitRoot | API/status/lib/runfolders.py:76-92 | a root without run folders is skipped, and the others take one step |
| RunFolders.AddRoot | API/status/lib/runfolders.py:79-92 | the NovaSeq A/B split, or the single latest run, as the step function states it |
| RunFolders.FailureSticks | API/status/lib/runfolders.py:79 | once a root has raised, the call fails with that error |
| RunFolders.LatestFails | API/status/lib/runfolders.py:76-79 | the call fails exactly when some root with run folders has fewer than four '/'-fields |
| RunFolders.LatestStepSpec | API/status/lib/runfolders.py:81-92 | NovaSeq gets name_A and name_B exactly for the sides that have runs, each the newest of its side; other sequencers get name with the newest run; keys stay distinct |
| RunFolders.LatestDistinct | API/status/lib/runfolders.py:74-94 | latest_runs never repeats a key |
| RtRunfolders.GetSequencerRootdir | API/api/test_api/rt_methods/runfolders.py:9-30 | the walk with the fixed sequencer list and a cap of 4 gives the fold of the per-directory walks |
| RtRunfolders.RootsBounded | API/api/test_api/rt_methods/runfolders.py:12-28 | at most four roots, none repeated, each the parent of a matching path under a MiSeq, NextSeq or NovaSeq directory; and each such directory whose walk meets a first match while fewer than four roots are listed contributes that match's parent |
| RtRunfolders.LatestStep | API/api/test_api/rt_methods/runfolders.py:40-51 | a root fails exactly when it is a NovaSeq whose A or B side has no runs |
| RtRunfolders.LatestAfter | API/api/test_api/rt_methods/runfolders.py:36-51 | an earlier failure is kept; otherwise one more root fails exactly when it raises |
| RtRunfolders.GetSequencerLatestRun | API/api/test_api/rt_methods/runfolders.py:33-53 | the loop over the roots computes the fold of the per-root steps |
| RtRunfolders.NextRoot | API/api/test_api/rt_methods/runfolders.py:36-51 | one iteration gives the state after that root, and a raise is the final state |
| RtRunfolders.VisitRoot | API/api/test_api/rt_methods/runfolders.py:37-51 | a root without run folders is skipped, and the others take one step |
| RtRunfolders.AddRoot | API/api/test_api/rt_methods/runfolders.py:40-51 | the unconditional A/B writes, or the single latest run |
| RtRunfolders.FailureSticks | API/api/test_api/rt_methods/runfolders.py:47-48 | once a root has raised, the call fails with that error |
| RtRunfolders.LatestFails | API/api/test_api/rt_methods/runfolders.py:40-48 | the call fails exactly when some root raises |
| RtRunfolders.LatestStepSpec | API/api/test_api/rt_methods/runfolders.py:42-51 | a NovaSeq root that does not raise gets both name_A and name_B, each the newest run of its side, and keys stay distinct |
| RtRunfolders.LatestDistinct | API/api/test_api/rt_methods/runfolders.py:35-53 | latest_runs never repeats a key |
| LatestRuns.GetLatestRuns | API/api/functions/real_time_status.py:254-259 | the loop over the top-level directories gives the fold of the per-directory steps |
| LatestRuns.VisitDir | running.py:10-14 | a LOGS directory is skipped; another one records its newest subdirectory, or raises when it has none |
| LatestRuns.FailureSticks | API/api/functions/real_time_status.py:258 | once `max()` has raised, later directories change nothing |
| LatestRuns.LatestFails | API/api/functions/real_time_status.py:256-258 | the loop fails exactly when some directory without LOGS in its path has no subdirectory |
| LatestRuns.LatestSpec | API/api/functions/real_time_status.py:254-259 | on success, the keys are distinct and are exactly the last path fields of the non-LOGS directories, each holding the newest run of a directory of that name |
| LatestRuns.NewestSpec | running.py:13 | the run picked is a subdirectory and none is newer |
| Format.DenseUpTo | API/status/lib/format.py:77-79 | the dense value list has max_x_label slots |
| Format.DenseIsLastValue | API/status/lib/format.py:77-79 | slot x - 1 holds the value of the last occurrence of label x, and 0 when x does not occur |
| Format.DenseValues | API/status/lib/format.py:75-79 | the fill loop gives the dense list, with each label's last value at its index |
| Format.SplitAtQ30 | API/status/lib/format.py:96-99 | the low series holds x = 1..29 and the high series x = 30.., together all values in order; the high one is empty exactly when there are at most 29 |
| Format.AreaSeries | API/status/lib/format.py:102-129 | the loop with width_idx and current_width gives the series fold |
| Format.SeriesCells | API/status/lib/format.py:110-118 | a series holds previous_width Nones, then current_width copies of the point |
| Format.NonZeroIndices | API/status/lib/format.py:106-107 | the indices are all in range |
| Format.NonZeroIndicesSpec | API/status/lib/format.py:106-107 | they are exactly the non-zero points, strictly ascending |
| Format.AreaSeriesPerPoint | API/status/lib/format.py:106-129 | one series per non-zero point, in order: the k-th is the entry of the k-th non-zero point, drawn at widths[k] (the last width once they run out) |
| Format.AreaEntryShape | API/status/lib/format.py:108-128 | a series has idx Nones, then width copies of its point; it is tagged seq + '-series', only the first carries 'id', and it is blue exactly below index 29 |
| Format.FormatQ30PlotData | API/status/lib/format.py:38-132 | returns the chart function's payload; on MiSeq it overwrites data['widths'] with ones, and leaves the other fields |
| Format.PlotAxis | API/status/lib/format.py:50-59 | the x axis runs 1..the last label on MiSeq, and 1..int(sum(widths) + 10) otherwise; column chart on MiSeq, area otherwise |
| StatusInterop.Policy | API/status/lib/interop.py:178-181 | this revision zero-fills values only, and not on MiSeq |
| StatusInterop.GetQscoreData | API/status/lib/interop.py:144-197 | the histogram is the collected histogram of the flattened bars under this revision's fill |
| StatusInterop.QscoreData | API/status/lib/interop.py:168-190 | labels strictly ascending; the bar labels plus 1..xmax off MiSeq, exactly the bar labels on MiSeq; each value is the last bar's height; widths follow the observed labels |
| StatusInterop.MiSeqChartReady | API/status/lib/format.py:75-79 | on MiSeq, a histogram with widths has labels from 1 up to its last label, one value each, as the dense fill needs |
| StatusInterop.SummaryFields | API/status/lib/interop.py:94-140 | the status becomes Initializing exactly when there are no reads or no widths, and stays otherwise |
| StatusInterop.Complete | API/status/lib/interop.py:127-140 | the chart and metric writes leave the status alone |
| StatusInterop.Summary | API/status/lib/interop.py:74-141 | summary on the result dictionary gives SummaryFields of the old dictionary |
| StatusInterop.NoReadsInitializes | API/status/lib/interop.py:94-97 | no reads: Initializing, and no other key touched |
| StatusInterop.NoWidthsInitializes | API/status/lib/interop.py:104-125 | reads but no widths: the reads are recorded in order, Initializing, and q30_plot untouched |
| StatusInterop.NoBarsNoWidths | API/status/lib/interop.py:123-125 | a histogram without bars has no widths |
| StatusInterop.CompleteWrites | API/status/lib/interop.py:127-140 | q30_plot is the chart of the histogram, the five metrics carry %, Gb, %, /mm², %, the reads and status are kept |
| StatusInterop.SummaryComplete | API/status/lib/interop.py:120-140 | past both guards, the result is the reads followed by the complete writes |
| StatusMain.HandleInitializingRun | API/status/main.py:22-73 | a new dictionary with every key of the input, overwritten by the placeholder keys and values |
| StatusMain.PlaceholderStatus | API/status/main.py:48-73 | the placeholder is Initializing, sets reads to '' and draws the empty chart |
| StatusMain.PlaceholderCycles | API/status/main.py:36-38 | it writes total_cycles and last_cycles as 0 (the misspelt key) and run-name |
| StatusMain.PlaceholderKeeps | API/status/main.py:34-73 | it writes neither last_cycle, run_name nor completion_dt, so those keys keep their values |
| StatusMain.BaseIdle | API/status/main.py:99-111 | run_info and metrics leave the status Idle |
| StatusMain.Gather | API/status/main.py:99-115 | the collector calls on a fresh dictionary give the gathered fields |
| StatusMain.ProcessRun | API/status/main.py:97-130 | one iteration gives the run's result |
| StatusMain.NoRunInfoIsPlaceholder | API/status/main.py:105-107 | without RunInfo.xml the result is the placeholder, whatever else the folder holds: Initializing with no completion_dt |
| StatusMain.GatheredStatus | API/status/main.py:110-115 | after the collectors the status is Initializing exactly when summary starved, and Idle otherwise |
| StatusMain.InitTestExactly | API/status/main.py:119-121 | the 'init' test succeeds exactly on a starved run |
| StatusMain.StarvedIsPlaceholder | API/status/main.py:116-121 | a starved run becomes the placeholder over the gathered fields, whatever its completion markers say |
| StatusMain.GatheredKeeps | API/status/main.py:110-130 | past the short-circuits, the reads, chart and metrics are in the result as summary wrote them |
| StatusMain.SettledRun | API/status/main.py:116-130 | past the short-circuits, the status is FinalStatus of the marker status and the completion date is the marker's |
| StatusMain.Outcomes | API/status/main.py:96-132 | one outcome per latest run, with the same keys in the same order |
| StatusMain.ParseLatestRuns | API/status/main.py:96-132 | the loop assigns each run's result under its key, in order |
| StatusMain.OutcomeStep | API/status/main.py:97-99 | assigning the next run's result extends the dictionary by that entry |
| StatusMain.OutcomesDistinct | API/status/main.py:97-132 | the result repeats no sequencer key |
| StatusMain.GetLatestRunStatus | API/status/main.py:76-132 | the dictionary is the latest-run resolution followed by one result per run |
| RtStatus.Placeholder | API/api/test_api/rt_status.py:18-55 | every key of the input, overwritten by the placeholder keys and values |
| RtStatus.HandleInitializingRun | API/api/test_api/rt_status.py:8-55 | the assignments act on the dictionary itself, which is also returned |
| RtStatus.PlaceholderKeeps | API/api/test_api/rt_status.py:18-55 | it leaves completion_dt, exp_name and reagents alone |
| RtStatus.ProcessRun | API/api/test_api/rt_status.py:69-102 | one iteration gives the run's result or the exception that escapes it |
| RtStatus.RunFailsExactly | API/api/test_api/rt_status.py:77-88 | an iteration raises exactly when the run has RunInfo.xml and its completion check raises |
| RtStatus.InitIsPlaceholder | API/api/test_api/rt_status.py:76-93 | without RunInfo.xml, or after an 'init' status, the result is the placeholder and Initializing |
| RtStatus.SettledRun | API/api/test_api/rt_status.py:95-102 | otherwise the status is FinalStatus of the marker status, with the marker's completion date |
| RtStatus.Outcomes | API/api/test_api/rt_status.py:68-102 | one outcome per latest run, with the same keys in the same order |
| RtStatus.ParseLatestRuns | API/api/test_api/rt_status.py:68-102 | the loop assigns each outcome under its key and stops at the first exception |
| RtStatus.NextRun | API/api/test_api/rt_status.py:69-102 | one iteration gives the state after that run, and a raise is the final state |
| RtStatus.NextOutcome | API/api/test_api/rt_status.py:71-102 | the body of an iteration computes that run's outcome |
| RtStatus.GetLatestRunStatus | API/api/test_api/rt_status.py:58-104 | the dictionary is the older run-folder resolution followed by one outcome per run |
| RtStatus.OneEntryPerRun | API/api/test_api/rt_status.py:68-104 | once the run folders resolve, the call fails exactly when some run raises; otherwise it has one entry per sequencer, no key repeated, each that run's result |
| RealTimeFormat.LastIdxSpec | API/api/functions/real_time_status.py:30-33 | last_idx is the index of the last non-zero value, or 45 when there is none |
| RealTimeFormat.KeptLength | API/api/functions/real_time_status.py:34 | the truncation keeps at most the values there are |
| RealTimeFormat.Truncated | API/api/functions/real_time_status.py:34 | the truncated data is no longer than the data |
| RealTimeFormat.TruncatedSpec | API/api/functions/real_time_status.py:30-35 | the truncation keeps a prefix and cuts only zeros, just after the last non-zero value, or at 46 values when all are zero |
| RealTimeFormat.LastNonZero | API/api/functions/real_time_status.py:30-33 | the loop gives last_idx |
| RealTimeFormat.LowPoints | API/api/functions/real_time_status.py:68 | the low series has min(29, len(data)) points |
| RealTimeFormat.HighPoints | API/api/functions/real_time_status.py:69 | the high series has the remaining points |
| RealTimeFormat.ColumnSplit | API/api/functions/real_time_status.py:67-70 | the two series hold the values in order, the low one at the first 29 labels and the high one at the rest |
| RealTimeFormat.Nones | API/api/functions/real_time_status.py:89-90 | the padding loop gives n Nones |
| RealTimeFormat.AppendPoint | API/api/functions/real_time_status.py:92-93 | the value loop appends n copies of the point |
| RealTimeFormat.AreaSeries | API/api/functions/real_time_status.py:74-101 | the loop with previous_width gives the series fold |
| RealTimeFormat.PaddingStep | API/api/functions/real_time_status.py:81-87 | an iteration adds an uncoloured series of width Nones exactly when previous_width is 0, then the coloured value series |
| RealTimeFormat.AreaLinks | API/api/functions/real_time_status.py:78 | only the first point's padding and value series carry 'id', every later one carries 'linkedTo', and all carry the NextSeq tag |
| RealTimeFormat.AreaCumulative | API/api/functions/real_time_status.py:76-101 | with widths of at least 1, the chart is one padding series of widths[0] Nones, then one series per point padded by the first width less one plus all earlier widths |
| RealTimeFormat.FormatQ30PlotData | API/api/functions/real_time_status.py:23-104 | returns the chart function's payload; outside NextSeq it truncates data['data'] in place, and leaves the other fields |
| RealTimeFormat.PlotAxis | API/api/functions/real_time_status.py:27-44 | the x axis runs 1..int(sum(widths) + 10) on NextSeq and 1..len(truncated data) + 1 otherwise; area chart on NextSeq, column otherwise |
| SavData.Policy | API/SAV_data/generate_SAV_data.py:126-129 | values are zero-filled exactly when the run is not a NextSeq run, and widths never |
| SavData.GetQscoreData | API/SAV_data/generate_SAV_data.py:93-145 | the histogram is the collected histogram of the flattened bars under that fill |
| SavData.QscoreData | API/SAV_data/generate_SAV_data.py:116-138 | labels strictly ascending; the bar labels plus 1..xmax unless NextSeq, exactly the bar labels on NextSeq; each value is the last bar's height; widths follow the observed labels |
| ParseInterop.GetQscoreData | parse_interop.py:113-155 | the histogram is the collected histogram with both dictionaries zero-filled |
| ParseInterop.QscoreData | parse_interop.py:130-145 | labels are the bar labels plus 1..xmax; values and widths line up with them, each the last bar's, 0 when filled |
| SummaryTable.CellOf | API/api/functions/parse_interop.py:49-52 | a NaN metric becomes the text "NaN", and any other value is kept |
| SummaryTable.RowLabelInjective | API/api/functions/parse_interop.py:34 | two reads share a label exactly when they share number and index flag, and no read label is a total label |
| SummaryTable.RowLabels | API/api/functions/parse_interop.py:34-40 | one label per read, then "Non-Indexed Total" and "Total" |
| SummaryTable.RowMetrics | API/api/functions/parse_interop.py:34-36 | one metrics row per read, then the non-indexed and overall totals |
| SummaryTable.IndexOf | API/api/functions/parse_interop.py:48 | `indexes.index(idx)` is the first position holding idx |
| SummaryTable.ColumnsDistinct | API/api/functions/parse_interop.py:24-31 | the six column labels are distinct |
| SummaryTable.CellsSpec | API/api/functions/parse_interop.py:47-52 | a row has the six columns once each, in the order of the `columns` tuple, each the cell of its getter |
| SummaryTable.FirstOccurrencesSpec | API/api/functions/parse_interop.py:46-48 | the keys a dict receives from a list of labels are exactly those labels, once each, ordered by where each first occurs |
| SummaryTable.FirstOccurrencesOfDistinct | API/api/functions/parse_interop.py:46-48 | labels without repeats become keys in their own order |
| SummaryTable.TableUpToSpec | API/api/functions/parse_interop.py:45-52 | after i labels the keys are the first occurrences among them, in that order, each holding the cells of the first row with that label |
| SummaryTable.TableSpec | API/api/functions/parse_interop.py:45-52 | the table's keys are the row labels by first insertion, each holding the cells of the first row with that label |
| SummaryTable.ColumnSeries | API/api/functions/parse_interop.py:42-44 | `d` holds the six column labels in the order of `columns`, each with the metric of every row in order |
| SummaryTable.BuildRow | API/api/functions/parse_interop.py:48-52 | the inner loop over `d.keys()` builds the row at the label's first position, columns in order |
| SummaryTable.BuildTable | API/api/functions/parse_interop.py:46-52 | the nested loops give the table, whose keys and rows TableSpec describes |
| SummaryTable.RunSummary | API/api/functions/parse_interop.py:12-54 | run_summary returns the table of the read rows and the two totals |
| SummaryTable.TableKeys | API/api/functions/parse_interop.py:34-40 | the rows come as the distinct read labels by first occurrence, then "Non-Indexed Total", then "Total", each row with the six columns in order |
| SummaryTable.TableTotals | API/api/functions/parse_interop.py:35-36 | the last two rows are the totals, holding the cells of the non-indexed and overall summaries |
| SummaryTable.TableReadRow | API/api/functions/parse_interop.py:34 | every read's label is a row, holding the cells of the first read with that number and index flag |
| SummaryTable.TableInReadOrder | API/api/functions/parse_interop.py:34-52 | when no two reads share number and index flag, the rows are the reads in read order, each with its own cells, then the totals |
| RealTimeStatus.ScanMarkers | API/api/functions/real_time_status.py:268-292 | the loop over the run folder gives the scan fold |
| RealTimeStatus.VisitEntry | API/api/functions/real_time_status.py:269-292 | one entry runs the NextSeq test, then the MiSeq test; a CompletionStatus without text raises, an ErrorDescription without text is stored as `None` |
| RealTimeStatus.ScanFailureSticks | API/api/functions/real_time_status.py:268-292 | once an entry has raised, later entries change nothing |
| RealTimeStatus.EntryFails | API/api/functions/real_time_status.py:269-289 | an entry raises exactly when it names a completion file that cannot be read, a NextSeq CompletionStatus without text, or a MiSeq time without 'T' |
| RealTimeStatus.ScanFails | API/api/functions/real_time_status.py:268-292 | the scan raises exactly when one of its entries does |
| RealTimeStatus.NsMarker | API/api/functions/real_time_status.py:269-282 | a NextSeq file with a CompletionStatus text gives Completed on exactly when that text contains 'completedasplanned' (or it was already), and the date and the ErrorDescription text, `None` included, are the file's in every case |
| RealTimeStatus.MsMarker | API/api/functions/real_time_status.py:284-292 | a MiSeq file with an ISO time gives Completed on with D, three spaces, HH:MM, and keeps the error |
| RealTimeStatus.ScanSpec | API/api/functions/real_time_status.py:264-292 | after a scan the status is Idle or Completed on, Completed on always has a date, and a date exists exactly when some entry named a completion file |
| RealTimeStatus.ChartReady | API/api/functions/real_time_status.py:170-171 | the run's histogram has at least as many widths as values on NextSeq, and at least as many labels as values otherwise, as the chart's indexing needs |
| RealTimeStatus.Summarized | API/api/functions/real_time_status.py:150-184 | summary adds exactly its seven keys (the reads in order, the chart, and the five metrics suffixed %, Gb, %, /mmÂ², %) and leaves every other key as it was |
| RealTimeStatus.Summary | API/api/functions/real_time_status.py:139-185 | summary on the dictionary gives Summarized of the old dictionary, with the formatted chart of the histogram |
| RealTimeStatus.SettleSpec | API/api/functions/real_time_status.py:308-315 | the last writes set status to FinalStatus, error and completion_dt to the scan's (a `None` error as JSON null), and keep every other key |
| RealTimeStatus.ProcessRun | API/api/functions/real_time_status.py:263-315 | one iteration gives the run's result or the exception that escapes it |
| RealTimeStatus.RunFails | API/api/functions/real_time_status.py:268-300 | an iteration raises exactly when an entry raises, whether or not RunInfo.xml exists |
| RealTimeStatus.NoRunInfoIsPlaceholder | API/api/functions/real_time_status.py:295-300 | without RunInfo.xml the result is the placeholder built from {}: Initializing, with no completion_dt and no exp_name |
| RealTimeStatus.SettledRun | API/api/functions/real_time_status.py:303-315 | with RunInfo.xml the status is FinalStatus of the scan status, error (null for `None`) and completion_dt are the scan's, and the other keys are the collectors' |
| RealTimeStatus.GatheredFields | API/api/functions/real_time_status.py:303-306 | a run's collected dictionary holds its cycles, reads, chart, cluster density and experiment name |
| RealTimeStatus.SettledStatus | API/api/functions/real_time_status.py:264-315 | a settled run is Idle, Running, Initializing or Completed on, and Completed on always has a completion date |
| RealTimeStatus.Outcomes | API/api/functions/real_time_status.py:263-315 | one outcome per latest run, with the same keys in the same order |
| RealTimeStatus.ParseLatestRuns | API/api/functions/real_time_status.py:262-317 | the loop assigns each outcome under its key and stops at the first exception |
| RealTimeStatus.NextRun | API/api/functions/real_time_status.py:263-315 | one iteration gives the state after that run, and a raise is the final state |
| RealTimeStatus.NextOutcome | API/api/functions/real_time_status.py:264-315 | the body of an iteration computes that run's outcome |
| RealTimeStatus.GetLatestRunStatus | API/api/functions/real_time_status.py:250-317 | the dictionary is the latest_runs resolution followed by one outcome per run |
| RealTimeStatus.OneEntryPerRun | API/api/functions/real_time_status.py:262-317 | once latest_runs resolves, the call fails exactly when some run raises; otherwise it has one entry per sequencer, no key repeated, each that run's result |
| Running.TrackStatus | running.py:27-32 | the tracking-file step fails exactly when the name has fewer than five '__'-fields, or is a RunCycle name with fewer than six |
| Running.FieldSplits | running.py:27 | a field followed by "__" splits off as the first part |
| Running.FieldsRoundTrip | running.py:27 | splitting '__'-joined fields gives the fields back |
| Running.CycleFromName | running.py:29-31 | a RunCycle file reports "Nextseq Running - Current cycle : " and field 5 up to its first '.' |
| Running.SetupFromName | running.py:32 | a RunSetup file reports "Run starting" |
| Running.OtherNameKeeps | running.py:29-32 | any other field 4 keeps the status |
| Running.ShortNameRaises | running.py:29 | a name with fewer than five fields raises |
| Running.ScanRun | running.py:19-53 | the loop over the run folder gives the scan fold |
| Running.VisitEntry | running.py:21-53 | one entry runs the tracking, NextSeq and MiSeq tests in order; the NextSeq texts are taken as they are, `None` included |
| Running.ScanFailureSticks | running.py:19-53 | once an entry has raised, later entries change nothing |
| Running.StartsIdle | running.py:17-19 | a run folder with no tracking directory and no completion file reports Idle with no error |
| Running.EntryFails | running.py:21-53 | an entry raises exactly on EntryRaises, whatever the report before it |
| Running.ScanFails | running.py:19-53 | the scan raises exactly when one of its entries does |
| Running.NsVerbatim | running.py:34-44 | the NextSeq completion file overrides earlier entries, and its CompletionStatus and ErrorDescription texts are reported verbatim, `None` included |
| Running.MsCompleted | running.py:46-53 | an ISO CompletionTime reports "Run completed in D at HH:MM:SS" and keeps the error |
| Running.Final | running.py:60-61 | the override keeps the error, and changes nothing when the cycles agree |
| Running.ProcessRun | running.py:16-64 | one iteration gives the run's report or the exception that escapes it |
| Running.CycleOverride | running.py:60-61 | differing cycles report "Running - current cycle :" and the last cycle in decimal, which reads back as that cycle |
| Running.RunReportSpec | running.py:19-61 | the report fails exactly when an entry raises; otherwise the error is the scan's, and so is the status when the cycles agree |
| Running.Outcomes | running.py:16-64 | one report per latest run, with the same keys in the same order |
| Running.ReportRuns | running.py:16-64 | the loop's reports, one per run, stopping at the first exception |
| Running.NextRun | running.py:16-64 | one iteration gives the reports after that run, and a raise is the final state |
| Running.NextOutcome | running.py:17-61 | the body of an iteration computes that run's report |
| Running.GetLatestRunStatus | running.py:7-64 | the script's output is the latest_runs resolution followed by one report per run |
| Running.OneReportPerRun | running.py:9-64 | once latest_runs resolves, the script fails exactly when some run raises; otherwise it reports once per sequencer, each that run's report |

## Left out

- InterOp (`py_interop_*`) is a foreign library. Its results are inputs: the run info, the last extracted cycle, the per-read summary, the bar series with the x axis maximum, and the formatted metric strings.
- Bar heights and widths are integers. The `int()` truncation of float widths and the float `y` values are not modelled.
- `convert_number_format` and `human_format` format floats. They are not modelled: the five metric strings come in already formatted, and only the units appended to them are modelled.
- Float arithmetic on the summary (`np.mean`, the cluster PF ratio, NaN detection) is not modelled. `SummaryTable` takes each metric as NaN or a number.
- XML parsing is not modelled. A completion file is the texts of the nodes read from it. In `real_time_status.py` and `running.py` the file is one the directory scan listed, and a file that raises when read is `None`. `API/api/test_api/rt_methods/runfiles.py` first tests that the file exists, so there a file is absent, unreadable (carrying the exception it raises) or read.
- `run_parameters` is not modelled. Its writes (`exp_name`, `reagents`) come in as one value, which covers the reagent-tag renaming of `API/status/lib/runfiles.py:21-80`.
- `os.path.getmtime` with `datetime.fromtimestamp(...).strftime(...)` is not modelled. A marker's time comes in as an already formatted non-empty stamp.
- `strptime`/`strftime` of the RunInfo date are not modelled. The date comes in reformatted.
- `os.scandir`, `os.walk`, `os.path.isfile` and `os.path.exists` are parameters, namely listings, walk functions and presence flags. The filesystem is taken to be unchanged while a call runs.
- The regular expression of `get_sequencer_rootdir` is written out as a predicate. It treats `\w` as ASCII letters, digits and '_', and Unicode word characters are not covered.
- `str.lower()` is modelled on ASCII letters only.
- StatusInterop.Summary: requires every bar label to be at least 1 on MiSeq. A label of 0 or less would write through Python's negative indexing in `API/status/lib/format.py:79`, and that is not modelled. `StatusMain` carries the same precondition only where `summary` runs on a MiSeq histogram: a run with RunInfo.xml under a MiSeq name (StatusMain.Readable). `Format.FormatQ30PlotData` carries it too.
- Format.FormatQ30PlotData: requires widths off MiSeq and a dense-ready histogram on MiSeq. The widths guard at `API/status/lib/interop.py:123-125` gives the first. On MiSeq, where `API/status/lib/interop.py:178` does not fill, the second follows from that guard and from observed labels of at least 1 (StatusInterop.MiSeqChartReady). The `IndexError` on an empty list is not modelled.
- RealTimeFormat.FormatQ30PlotData: requires at least as many widths as values on NextSeq, and at least as many labels as values elsewhere. The histogram that `summary` passes always satisfies this (RealTimeStatus.ChartReady), so the `IndexError` on a short list is not modelled.
- The key order of the result dictionaries (`Records.Fields`, a map) is not modelled, though the JSON the API returns lists keys in insertion order. Only the order of the outer dictionaries keyed by sequencer (`Dicts`) and of `run_summary`'s table is modelled.
- Records.Record.Merge applies a collector's writes in one step. The order in which `run_info`, `metrics` and `run_parameters` assign their own keys is not modelled.
- `API/api/test_api/rt_methods/interop.py` (the collectors that `rt_status.py` calls) is not part of this model. `RtStatus` takes their writes as one dictionary.
- The top-level `parse_interop.py` is only partly modelled:
  - `run_info` and `metrics` give `running.py` its two cycle counts;
  - its `summary`, which builds and prints a pandas table, is not modelled;
  - its `sav_metrics` and `main` are not modelled.
- `sav_metrics` and `main` of `API/SAV_data/generate_SAV_data.py` are not modelled. They build a pandas table from InterOp's imaging data and write CSV and JSON files. Only `get_qscore_data` and `run_summary` of that file are modelled.
- `running.py` prints its results. The `(status, error)` pair printed for each run is modelled as a returned sequence of reports. The section headers, the printed `ctime` and the lines printed before an exception are not modelled.
- Running.CycleOverride: stated for a last cycle of at least 0, the value InterOp's `max_cycle` reports. The text for a negative cycle is not covered.
- The HTTP layer (`API/routes.py`, `API/api/routes.py`, `API/wsgi.py`) is not part of this model. The storage root and the two completion file names are parameters of `RealTimeStatus.GetLatestRunStatus`. The tracking directory and the initial status that `API/api/routes.py:18` passes are never used by the source (`API/api/functions/real_time_status.py:250`, `:264` resets the status to `'Idle'` for every run) and are not modelled.
- A completion file that cannot be parsed and one that lacks the CompletionStatus or ErrorDescription element are both the file reading `None`: the model does not separate the `ParseError` from the `AttributeError` of a missing element. An element without text is modelled separately where the code stores it: an ErrorDescription text of `None` is stored or printed, a CompletionStatus of `None` is printed by `running.py`, and `.lower()` or `.split('T')` on a `None` text raises. In `real_time_status.py` and `running.py` a CompletionTime without text raises like an unreadable file, and the model does not tell the two exceptions apart.
