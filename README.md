# WikiDAT revision-history task, modelled in Dafny

WikiDAT loads Wikipedia dump files into a local database. A *task* ties
together two collaborators: a downloader, which fetches a dated collection of
dump files for one language, and an ETL engine (`PageRevisionETL`), which
parses them and loads pages and revisions. This project models the task
layer, `wikidat/tasks/tasks.py`:

- `Task.__init__` and `RevisionHistoryTask.__init__` set up the task object:
  the language (default `"scowiki"`) and the requested date are stored, and
  the downloader and ETL slots start empty.
- `RevisionHistoryTask.execute` works in these steps:
  1. It builds the downloader and asks it for the collection.
  2. It derives the database name `lang + "_" + date.strip('/')`.
  3. If the collection holds more than one file, it splits the path list at
     `len / 2` and builds two ETL instances. Otherwise it builds one instance
     over the whole list.
  4. It calls `run` on the instances.

The model follows what the code does, including two behaviours of the code
as it stands:

- **`mp.Process(target=self.etl1.run())` calls `run` eagerly.** The call
  happens in the parent, while the argument is evaluated. So `etl1.run()`
  finishes before `etl2.run()` starts, and each `Process` gets whatever
  `run()` returned as its target. The first process is started between the
  two runs.
- **The multi-path branch never assigns `self.etl`.** The final
  `self.etl.run()` therefore calls `run` on whatever the field held before.
  On a fresh task that is `None`, and `execute` ends in an `AttributeError`
  after both halves have run. On a task that ran a single-path collection
  earlier, the final call re-runs that earlier instance instead.

The project has three modules:

- **`Partition`** (`partition.dfy`): how the path list is shared between ETL
  instances. It provides the two slices and the plan of at most two parts.
  Lemmas show that the parts rebuild the list in order, that each position
  lands in exactly one part, and how big each part is.
- **`StoreName`** (`store_name.dfy`): the database name. Python's
  `str.strip('/')` is modelled as a left strip followed by a right strip. It
  is proved equal to the reference definition: the unique slice that has
  only slashes outside it and no slash at either end. Further lemmas show
  that the strip is idempotent, that a slash added at either end makes no
  difference, and that two dates give the same name exactly when they agree
  once stripped.
- **`Tasks`** (`tasks.dfy`): the task object and `execute`.
  - `Downloader` and `Etl` are value records of their constructor
    arguments. `DumpCollection` is the `(paths, date)` pair that `download`
    returns.
  - The collaborator calls are recorded, in order, in a `trace` field.
  - `RevisionHistoryTask` is a class with the object's fields.
  - `Execute` is proved against `Executed`, a statement-by-statement function
    on the object's state.
  - The lemmas about `Executed` and `ExecTrace` state what one call does:
    - which fields change, and to what;
    - which instances are built, and with which configuration;
    - the order of the calls;
    - exactly when the final `run` fails.

## Model

| member | source | states |
|---|---|---|
| Partition.Halves | wikidat/tasks/tasks.py:82-83 | the slices `paths[0:n/2]` and `paths[n/2:]` concatenate back to the list, the first has floor(n/2) elements and is at most one shorter than the second, and both are non-empty once n > 1 |
| Partition.Plan | wikidat/tasks/tasks.py:80-101 | more than one path gives two parts of sizes floor(n/2) and n - floor(n/2); at most one path, the empty list included, gives the single part `[paths]`; the parts concatenate to the input and none is empty when the input is not |
| Partition.PlanPositions | wikidat/tasks/tasks.py:82-83 | every position k of the input lands in exactly one part, at offset k in the first part or k - floor(n/2) in the second, so repeated paths are neither lost nor duplicated |
| Partition.PlanSizesSum | wikidat/tasks/tasks.py:82-83 | the part sizes add up to the number of paths |
| Partition.SevenPathsSplit | wikidat/tasks/tasks.py:80-83 | seven paths become the parts `paths[..3]` and `paths[3..]` |
| Partition.FivePathsSplit | wikidat/tasks/tasks.py:82-83 | five paths become parts of 2 and 3, the floor half going first |
| StoreName.LStrip | wikidat/tasks/tasks.py:73 | the left strip never grows the string and never leaves a leading slash |
| StoreName.RStrip | wikidat/tasks/tasks.py:73 | the right strip never grows the string and never leaves a trailing slash |
| StoreName.LStripCut | wikidat/tasks/tasks.py:73 | the left strip keeps a suffix of its input and removes only slashes |
| StoreName.RStripCut | wikidat/tasks/tasks.py:73 | the right strip keeps a prefix of its input and removes only slashes |
| StoreName.Strip | wikidat/tasks/tasks.py:73 | `strip('/')` leaves a string with no slash at either end, no longer than the input |
| StoreName.StripSlice | wikidat/tasks/tasks.py:73 | the stripped string is a contiguous slice of the input with only slashes before and after it |
| StoreName.StripUnique | wikidat/tasks/tasks.py:73 | any slice with only slashes outside it and no slash at its own ends is the stripped string, so Strip is exactly this reference definition |
| StoreName.StripClean | wikidat/tasks/tasks.py:73 | a string with no slash at either end is left unchanged |
| StoreName.StripIdempotent | wikidat/tasks/tasks.py:73 | stripping twice equals stripping once |
| StoreName.StripIgnoresLeadingSlash | wikidat/tasks/tasks.py:73 | a slash added in front does not change the result, because both ends are stripped |
| StoreName.StripIgnoresTrailingSlash | wikidat/tasks/tasks.py:73 | a slash added at the end does not change the result |
| StoreName.DbName | wikidat/tasks/tasks.py:73 | the name is the language, an underscore, then the stripped date, which has no boundary slash; its length is the sum of these parts |
| StoreName.DbNameSameIff | wikidat/tasks/tasks.py:73 | for one language, two dates give the same database name if and only if they are equal once stripped |
| StoreName.TrailingSlashExample | wikidat/tasks/tasks.py:73 | `enwiki` with `2023-01-01/` gives `enwiki_2023-01-01` |
| StoreName.PlainDateExample | wikidat/tasks/tasks.py:73 | `scowiki` with `20240101` gives `scowiki_20240101` |
| StoreName.LeadingSlashExample | wikidat/tasks/tasks.py:73 | `/2024/` gives `enwiki_2024`: leading slashes are removed as well |
| StoreName.OnlySlashesExample | wikidat/tasks/tasks.py:73 | a date of only slashes leaves `enwiki_` |
| Tasks.Instances | wikidat/tasks/tasks.py:80-104 | one ETL instance per part of the plan, in order, each over its part and configured with the task's language, the database name from the resolved date and the caller's fan-outs and credentials |
| Tasks.InstancesCoverPaths | wikidat/tasks/tasks.py:80-104 | the instances' path lists concatenate to the downloaded list: every path is handed to exactly one instance, in order |
| Tasks.FinalRun | wikidat/tasks/tasks.py:108 | no contract of its own; MultiPathTrace, SinglePathTrace and RerunAfterSinglePath state which instance the final `self.etl.run()` runs, and that it runs nothing when `self.etl` is `None` |
| Tasks.Calls | wikidat/tasks/tasks.py:68-108 | no contract of its own; CallsLayout states where the download, the constructions and the runs sit in it |
| Tasks.ExecTrace | wikidat/tasks/tasks.py:68-108 | no contract of its own; DownloadFirst, ConstructionsPrecedeRuns, ConstructionsShareConfig, MultiPathTrace and SinglePathTrace state the calls of one `execute` |
| Tasks.Executed | wikidat/tasks/tasks.py:53-108 | no contract of its own; ExecutedMeetsSpec, ExecutedMultiPath and ExecutedSinglePath state what it does |
| Tasks.CallsLayout | wikidat/tasks/tasks.py:68-108 | the download comes first, instance i is constructed at position 1 + i, and every later call is a `run` |
| Tasks.DownloadFirst | wikidat/tasks/tasks.py:68-70 | an `execute` makes at least three calls, the first is the download with the requested date, and no other call is a download |
| Tasks.ConstructionsPrecedeRuns | wikidat/tasks/tasks.py:84-108 | no instance is constructed after any `run` call |
| Tasks.ConstructionsShareConfig | wikidat/tasks/tasks.py:73-104 | every constructed instance gets the same language, fan-outs, credentials and a database name computed from the resolved date, not the requested one |
| Tasks.MultiPathTrace | wikidat/tasks/tasks.py:80-108 | with more than one path the instances are the two halves, the calls are download, construct 1, construct 2, run 1, run 2, then a run of the previous `self.etl`, and the call fails exactly when that was `None` |
| Tasks.SinglePathTrace | wikidat/tasks/tasks.py:99-108 | with at most one path, including none, one instance over the whole list is constructed and run once, and `execute` finishes normally |
| Tasks.ExecutedMeetsSpec | wikidat/tasks/tasks.py:53-108 | after `execute` the language is kept, `down` is the language's downloader, `paths` and `date` hold what the download returned, and the instances go to `etl1`/`etl2` (other fields kept) or to `etl`; `etl` is unchanged by the multi-path branch and holds the single instance otherwise; the trace grows by exactly ExecTrace; the outcome is RunOnNone if and only if `self.etl` is `None` at the final run (line 108) |
| Tasks.ExecutedMultiPath | wikidat/tasks/tasks.py:80-108 | the whole new state of the multi-path branch: `etl` keeps its value from before the call, since the branch never assigns it; the halves go in `etl1`/`etl2`; the final `run` is on that old `etl`, which decides the outcome |
| Tasks.ExecutedSinglePath | wikidat/tasks/tasks.py:99-108 | the whole new state of the single-path branch: `etl1`/`etl2` untouched, the instance in `etl`, a normal finish |
| Tasks.FreshMultiPathFails | wikidat/tasks/tasks.py:33-108 | on a fresh task with more than one path, both halves are constructed and run, then `execute` fails with `self.etl` still `None` |
| Tasks.RerunAfterSinglePath | wikidat/tasks/tasks.py:99-108 | when `self.etl` already holds an instance and more than one path arrives, the last call re-runs that old instance and `execute` finishes normally |
| Tasks.RevisionHistoryTask.constructor | wikidat/tasks/tasks.py:26-51 | the language defaults to `scowiki` and the date to `None`; the new object holds its language and requested date, and `down`, `etl`, `paths`, `etl1`, `etl2` and the call trace are empty (the Initial state) |
| Tasks.RevisionHistoryTask.Execute | wikidat/tasks/tasks.py:53-108 | the object's new fields and the outcome are those Executed gives for the old fields and the downloaded collection |
| Tasks.ExecuteNewTask | wikidat/tasks/tasks.py:44-108 | building a task and executing it once makes exactly the calls of ExecTrace from an empty `etl`, and ends in the error if and only if the downloader returned more than one path |

## Left out

- Downloading: `RevHistDownloader.download` (network, files) is not part of this model. `Execute` receives the collection it returns as the parameter `fetched`. `ExecuteNewTask` receives the downloader as the function `download`. A downloader that returns `None` for the date, or something other than a list, is not modelled.
- The mirror URL: the `mirror` argument only reaches the downloader's constructor, so `Downloader` records the language alone.
- Printing: the progress messages on standard output are not modelled.
- The ETL engine: `PageRevisionETL` (parsing, fan-out workers, database loading) is not part of this model. An instance is the record of its constructor arguments, and `run` is an entry in the trace that always returns.
- Exceptions from collaborators: a failing download, constructor or `run` is not modelled. The only error modelled is the `AttributeError` of calling `run` on `None`.
- Processes: each `Process` is built with whatever `run()` returned as its target, and is then started and joined. What that target does is not part of this model, because `PageRevisionETL.run` is not part of it. Neither is any concurrency modelled.
- Empty collection: no error is raised for an empty path list. The code hands it whole to a single ETL instance, and the model follows the code (ExecutedSinglePath covers it).
- Stripping: `strip('/')` removes slashes from both ends of the date, not only the trailing ones. The model follows the code (StripIgnoresLeadingSlash, LeadingSlashExample).
- Error aggregation: no acquisition or pipeline error types, and no collection of failures, exist in this code, so none are modelled.
- Missing attributes: reading `paths`, `etl1` or `etl2` before the first `execute` raises `AttributeError` in Python. The model gives these fields the value `None` instead.
- Class split: `Task` and `RevisionHistoryTask` are merged into one class, because `Task` only provides the `__init__` that the subclass calls with its own defaults.
- Tasks.RevisionHistoryTask.Execute: the calls are collected in a local sequence and the fields are written together once the instances exist. The source assigns them one statement at a time. No exception can occur between those statements in the model, so the final state is the same. The order of the calls is kept in the trace.
