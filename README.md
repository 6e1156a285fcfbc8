# Active-learning docking loop: a Dafny model

The repository is a set of command-line stages for an active-learning
virtual screen:

- **sampling** draws a random fraction of every ligand library;
- **docking** docks one sampled batch with Uni-Dock and keeps the best pose of every ligand;
- **scoring** turns the docked poses into `smiles,title,score` lines;
- **modeling** trains a model on those lines;
- **evaluating** predicts the rest of the library;
- **topping** picks the best-scored predictions.

A planner submits one cluster job whose script runs, in order: sampling,
a launcher (`paramrun`) over the job file `<wd>/docking.commands.txt`,
scoring, modeling and evaluating. No stage in the repository writes that
job file; the docking command is meant to be run once per batch from it.
The stages communicate only through files. Sampling skips each library
whose sample exists, scoring skips the whole stage once the training
table exists, and topping skips once its final selection exists and
reuses per-table caches; docking has no such skip.

This project models the decision logic of five of them: the planner, docking,
scoring, sampling and topping. The modules are:

- `Paths`: file names and the pathlib operations the stages use to derive one name from another (`suffix`, `stem`, `with_suffix`), the ending test `EndsWith`, and Python's substring test `in`.
- `Files`: the shared environment.
  - The `FileSystem` class maps paths to what each file holds.
  - The `*<tail>` glob over a directory listing.
  - The records that the external readers and writers exchange with it.
  - The Python exceptions the stages raise.
- `Planner` (`active_learning.py`, pure).
  - The queue-to-layout rule and the debug clamps.
  - The job description and the ordered script of stages.
- `Docking` (`docking.py`, mixed).
  - The manifest loop, as a method on the filesystem.
  - The best-pose loop and its file deletions.
  - The conditional consolidated write.
  - The stable minimum selection, as functions and lemmas.
- `Topping` (`topping.py`, pure): the cached per-table top set, the merge of several tables and the final halving. It is modelled as functions from the filesystem before a call to the result and the filesystem after it.
- `Scoring` (`scoring.py`, imperative): the per-record line loop with per-record failure and the conditional CSV write, plus the stage-level skip.
- `Sampling` (`sampling.py`, mixed): the per-library skip-or-sample and the pool size.
- `Pipeline`: how the names one stage writes are the names the next one reads.

Each parallel fan-out (`vstool.parallel_cpu_task`) is modelled as a sequential map over the list, in list order.

The external programs are parameters:

- the ligands MolIO parses from a batch, each with whether its per-ligand write succeeded;
- the files Uni-Dock writes;
- the records the RDKit supplier yields for a file, as a function from path to records;
- the directory listing a glob filters;
- the machine's CPU count;
- the directory of the Python interpreter.

Scores are exact `real` numbers.

## Model

| member | source | states |
|---|---|---|
| Paths.WithSuffix | src/active_learning/scoring.py:28 | `with_suffix` on a non-empty name: the stem is a prefix of the result, the result ends with the new suffix, and its length is the stem's plus the suffix's, so it is exactly the stem followed by the suffix |
| Paths.Suffix | src/active_learning/docking.py:63 | pathlib's suffix: empty, or a dot followed by at least one character; StemSuffix states that stem and suffix give back the name |
| Paths.Stem | src/active_learning/docking.py:63 | pathlib's stem (`with_suffix("")`): a prefix of the name |
| Paths.WithSuffixRoundTrip | src/active_learning/docking.py:34 | replacing the suffix with a valid one gives a name whose suffix is the new one and whose stem is the old stem |
| Paths.Contains | src/active_learning/active_learning.py:53-57 | Python's `in` on strings: the pattern occurs at some position of the text, and a contained pattern is never longer than the text |
| Paths.Absent | src/active_learning/active_learning.py:53-57 | a pattern holding a character the text lacks is not contained in it |
| Files.Glob | src/active_learning/sampling.py:45 | a directory entry is matched exactly when its name ends with the pattern's tail, and there are no more matches than entries; the order is stated by GlobAppend |
| Files.GlobAppend | src/active_learning/sampling.py:45 | matches keep listing order: the matches of two consecutive parts of a listing are the first part's matches followed by the second's, and a single entry matches iff its name ends with the tail |
| Files.FileSystem.Unlink | src/active_learning/docking.py:70-71 | `os.unlink` removes an existing file; on a missing one it raises FileNotFoundError and changes nothing |
| Files.FileSystem.Write | src/active_learning/docking.py:45-46 | writing a file sets that one path's content and leaves every other path as it was |
| Files.FileSystem.WriteAll | src/active_learning/docking.py:79 | Uni-Dock's run adds or overwrites exactly the files it writes and leaves every other path as it was |
| Planner.TasksPerNode | src/active_learning/active_learning.py:53-60 | a known queue gives 2 to 4 tasks per node; any other label gives the ValueError case; QueuePriority states which count each label gets |
| Planner.FirstMatch | src/active_learning/active_learning.py:53-60 | the ordered-table reading of the queue rule: None exactly when no fragment occurs in the label; otherwise the count of the first fragment that occurs, no earlier fragment occurring; QueueChainIsTable relates it to TasksPerNode |
| Planner.WorkDir | src/active_learning/active_learning.py:49 | the work directory is exactly the scratch directory, `/`, then the output directory's name: it extends scratch by `/`, ends with that name and is as long as the three together |
| Planner.Script | src/active_learning/active_learning.py:68-82 | the script has seven steps; their order is stated by ScriptOrder and their arguments by ScriptChaining |
| Planner.QueueChainIsTable | src/active_learning/active_learning.py:53-60 | the if/elif chain is the first match in the ordered table a100→3, h100→2, rtx→4 |
| Planner.A100TakesPriority | src/active_learning/active_learning.py:53-58 | "gpu-a100-rtx" gets 3 because "a100" is tried first; "gpu-h100" gets 2; "rtx" gets 4 |
| Planner.QueuePriority | src/active_learning/active_learning.py:53-60 | for every label: one containing "a100" gets 3; otherwise one containing "h100" gets 2; otherwise one containing "rtx" gets 4; and the ValueError case happens exactly when it contains none of the three |
| Planner.Plan | src/active_learning/active_learning.py:49-87 | a job is submitted iff `--outdir` is given, the queue is known, and center and size have three values each; an unknown queue raises ValueError("Invalid queue …"); tasks = nodes × tasks per node; debug forces 2 nodes; wall time is 0-01:59 in debug and 1-23:59 otherwise; the script is `<outdir>/submit.sh` |
| Planner.ScriptOrder | src/active_learning/active_learning.py:82 | the script runs source, cd, sampling, paramrun, scoring, modeling, evaluating, in that order, and never topping |
| Planner.ScriptChaining | src/active_learning/active_learning.py:68-80 | every stage works in `<scratch>/<outdir name>`; the launcher reads `<wd>/docking.commands.txt`; training reads `<wd>/train.smiles.score.csv`; evaluation uses the model directory that training writes; all stages run with `--debug` |
| Planner.DefaultLayout | src/active_learning/active_learning.py:62 | with the defaults `gpu-a100` (line 34) and 8 nodes (line 32) and no debug, 24 tasks for 1 day 23:59 |
| Planner.DebugClamp | src/active_learning/active_learning.py:50-62 | in debug mode, on any known queue, the job is submitted with 2 nodes whatever `--nodes` says and a 0-01:59 wall time; the task count is 6 for an "a100" label, 4 for an "h100" one and 8 for an "rtx" one |
| Docking.AcceptedMembers | src/active_learning/docking.py:37-40 | a ligand is kept exactly when its per-ligand write returned a path |
| Docking.LigandPath | src/active_learning/docking.py:38 | each ligand file sits in the batch's directory and its name ends with `.sdf`; LigandPathInjective states that two ligands share a file exactly when they share a title |
| Docking.LigandPathInjective | src/active_learning/docking.py:38 | two ligands' files are the same path exactly when their titles are equal |
| Docking.Accepted | src/active_learning/docking.py:37-40 | the ligands whose write returned a path, in parse order, never more than were parsed; membership stated by AcceptedMembers |
| Docking.Manifest | src/active_learning/docking.py:37-43 | the manifest never lists more ligands than were parsed, and at most 100 in debug mode; ManifestBounds and CapReached state what it lists |
| Docking.ManifestPath | src/active_learning/docking.py:34 | the manifest sits in the batch's directory; its name ends with `.txt`, has suffix `.txt` and has the batch's stem |
| Docking.Saved | src/active_learning/docking.py:38 | the per-ligand writes keep every existing path; SavedFiles states the content of each |
| Docking.ManifestBounds | src/active_learning/docking.py:37-43 | the manifest is a prefix of the written ligands in parse order: all of them without debug; in debug, min(written, 100) of them |
| Docking.CapReached | src/active_learning/docking.py:41-43 | once the 100th written ligand is reached, the rest of the batch cannot change the debug manifest (the `break`) |
| Docking.SavedFiles | src/active_learning/docking.py:38 | every kept ligand has its `<title>.sdf` beside the batch, holding that ligand; no other path changes |
| Docking.WriteLigands | src/active_learning/docking.py:37-43 | the loop keeps exactly the manifest's ligands and writes exactly their files, stopping at 100 in debug mode |
| Docking.LigandList | src/active_learning/docking.py:32-47 | the manifest is the batch name with suffix `.txt`; it lists the kept ligands' paths one per line, in order, and is written after the ligand files |
| Docking.Lines | src/active_learning/docking.py:46 | the manifest has one line per ligand path, and line i shows path i |
| Docking.QualifyingMembers | src/active_learning/docking.py:65-67 | a pose is collected exactly when it has a molecule and a strictly negative score |
| Docking.Qualifying | src/active_learning/docking.py:65-67 | the qualifying poses in file order, never more than the poses; membership stated by QualifyingMembers |
| Docking.BestOf | src/active_learning/docking.py:73 | `best_pose` returns None exactly when no pose qualifies, otherwise a qualifying pose; BestOfSpec and EarliestBest state which one |
| Docking.OutPath | src/active_learning/docking.py:63 | Uni-Dock's output sits beside the ligand file; its name ends with `_out.sdf`, begins with the ligand's stem and is exactly as long as the two together, so it is the stem followed by `_out.sdf` |
| Docking.ConsolidatedPath | src/active_learning/docking.py:86 | the consolidated file sits beside the batch; its name ends with `.docking.sdf`, begins with the batch's stem and is exactly as long as the two together, so it is the stem followed by `.docking.sdf` |
| Docking.KeepQualifying | src/active_learning/docking.py:65-67 | the loop collects the qualifying poses in file order |
| Docking.PosesIn | src/active_learning/docking.py:65 | the poses read from an `_out.sdf`; a file that is not a structure file yields none |
| Docking.FirstMinIndex | src/active_learning/docking.py:73 | `sorted(..., key=score)[0]` on a stable sort: a least-score position with no earlier position of that score |
| Docking.FirstMinIndexUnique | src/active_learning/docking.py:73 | least score plus no earlier equal score determines that position uniquely |
| Docking.BestOfSpec | src/active_learning/docking.py:65-73 | a pose is returned iff some pose qualifies; the returned pose qualifies, has the least score among qualifying poses, and no qualifying pose of equal score precedes it in the file |
| Docking.EarliestBest | src/active_learning/docking.py:73 | the chosen pose sits at a file position before which every qualifying pose scores strictly higher |
| Docking.BestOfStep | src/active_learning/docking.py:73 | the first pose is picked when it qualifies and no later qualifying pose scores lower; otherwise the pick is the later poses' pick, which then scores strictly lower than a qualifying first pose |
| Docking.OutPathDiffers | src/active_learning/docking.py:63 | a ligand file and its `<stem>_out.sdf` are different paths, so the two unlinks delete two files |
| Docking.BestPose | src/active_learning/docking.py:62-74 | no `_out.sdf`: None, and nothing is deleted. Otherwise the best qualifying pose, or None when no pose qualifies; outside debug both the ligand file and its output are deleted, even when no pose qualifies. A missing ligand file raises FileNotFoundError. The result and the files left are those of BestPoseOf |
| Docking.BestPoseOf | src/active_learning/docking.py:62-74 | `best_pose` as a function from the files before to the pose and the files after; the only failure is FileNotFoundError on the ligand file |
| Docking.BestPoseOfEffects | src/active_learning/docking.py:64-73 | a successful `best_pose` only removes files and keeps the content of the rest; outside debug the ligand's `_out.sdf` is gone afterwards; a returned pose has a molecule and a negative score |
| Docking.BestPoseOfDebug | src/active_learning/docking.py:69 | in debug mode `best_pose` never fails and deletes nothing; it returns the best pose of the ligand's output, or None without one |
| Docking.DockAll | src/active_learning/docking.py:82 | `best_pose` over the manifest in order, each on the files the previous ones left: the only failure is FileNotFoundError, and a success has one result per entry |
| Docking.DockAllStep | src/active_learning/docking.py:82 | a run that gets past its last entry is the run of the earlier entries followed by that entry's `best_pose` |
| Docking.DockAllStops | src/active_learning/docking.py:82 | once an entry fails, the whole run fails with that entry's error, whatever follows |
| Docking.DockAllRemovesOnly | src/active_learning/docking.py:70-71 | a successful run only deletes files: every file left holds what it held before |
| Docking.DockAllClearsOutputs | src/active_learning/docking.py:69-71 | outside debug mode, no entry's `_out.sdf` is left after a successful run |
| Docking.DockAllQualifies | src/active_learning/docking.py:66-73 | every pose of a successful run has a molecule and a negative score |
| Docking.DockAllDebug | src/active_learning/docking.py:69 | in debug mode the run succeeds, deletes nothing, and returns for each entry the best pose of its own output |
| Docking.BestsInAt | src/active_learning/docking.py:82 | the debug results are in manifest order: position i is entry i's best pose |
| Docking.BestPoses | src/active_learning/docking.py:82 | the loop over the manifest returns exactly DockAll's poses and leaves exactly DockAll's files, or fails with DockAll's error |
| Docking.Dock | src/active_learning/docking.py:77-89 | the new filesystem is exactly: the kept ligand files and the manifest written, Uni-Dock's files added, then every deletion of DockAll, then `<batch stem>.docking.sdf` holding the poses iff the manifest has an entry; it fails iff DockAll does. The consolidated file has one entry per manifest ligand and every pose qualifies; with an empty manifest only the manifest and Uni-Dock's files appear |
| Docking.LigandListAsWritten | src/active_learning/docking.py:29-33 | as written, `ligand_list` raises NameError for `logger` before parsing anything |
| Docking.LoggerUnboundLosesManifest | src/active_learning/docking.py:29-33 | a batch with one writable ligand gets a one-entry manifest in LigandList but an error as written |
| Topping.CachePath | src/active_learning/topping.py:28 | the per-table cache is `top.smiles.csv` in the table's directory, whatever the table is called, so every table of one directory shares it |
| Topping.OutputPath | src/active_learning/topping.py:42 | the final selection `<wd>/top.smiles`; TopSelection states when it is written, SelectionIdempotent that it makes a rerun skip |
| Topping.HeadCount | src/active_learning/topping.py:36 | how many rows `head(k)` keeps of n, negative k included: never more than n |
| Topping.Head | src/active_learning/topping.py:36 | `head(k)` keeps a prefix of the rows, HeadCount of them |
| Topping.Select | src/active_learning/topping.py:35-36 | sort then `head(k)` keeps exactly HeadCount rows; SelectSpec states they are sorted, taken from the input and the best-scored |
| Topping.Quota | src/active_learning/topping.py:36 | the `head` argument `int(n * percent * 2)` is never negative for a non-negative fraction, and at most n for one up to 0.5; KeptCount states it exactly |
| Topping.SortByScore | src/active_learning/topping.py:35 | sorting yields the same rows (as a multiset), non-decreasing in score |
| Topping.Trunc | src/active_learning/topping.py:36 | `int()` truncates toward zero |
| Topping.SelectSpec | src/active_learning/topping.py:35-36 | sort then `head(k)` gives a sorted sub-multiset of the rows, as many as `head` keeps, and every kept score is ≤ every dropped score |
| Topping.KeptCount | src/active_learning/topping.py:36 | with a non-negative fraction, a table of n rows keeps min(n, ⌊2·n·percent⌋) rows; nothing is divided by 100 |
| Topping.Project | src/active_learning/topping.py:33-34 | reading columns 1 and 2 gives one `title,score` row per prediction, in order |
| Topping.Top | src/active_learning/topping.py:27-38 | with a cache: its rows are returned and nothing is written; without one: success iff the table exists and is readable, and then the result is cached and nothing else changes |
| Topping.TopComputed | src/active_learning/topping.py:33-37 | a computed top set is sorted, a sub-multiset of the table, ⌊2·n·percent⌋-limited, best-first, and exactly what the cache holds afterwards |
| Topping.TopCached | src/active_learning/topping.py:29-31 | a second `top` on the same table reads the same rows back from the cache and writes nothing |
| Topping.TopAll | src/active_learning/topping.py:52-53 | the fan-out over several tables removes no file and creates or changes only `top.smiles.csv` caches; TopAllAppend states how its rows are built; SharedCache states them for tables of one `wd`, the case `main` meets, and TopAllSeparate for tables in distinct directories |
| Topping.TopAllAppend | src/active_learning/topping.py:52-53 | the fan-out over two lists of tables is the fan-out over the first, then over the second on the files the first left, with the rows concatenated; it fails with the first failure |
| Topping.TopAllSeparate | src/active_learning/topping.py:52-53 | for tables in distinct directories (not the case in `main`, whose tables all come from one `wd`), all present and uncached, the fan-out succeeds and its rows are each table's own top set, concatenated in table order |
| Topping.EachTopFrame | src/active_learning/topping.py:28 | a table's own top set depends only on the table and its cache path |
| Topping.Merged | src/active_learning/topping.py:49-55 | zero tables found: ValueError; one: that table's `top`; several: the fan-out, whose rows TopAllAppend and TopAllSeparate describe |
| Topping.TopSelection | src/active_learning/topping.py:41-60 | `top.smiles` exists: skipped, nothing changes. Otherwise succeeds iff merging does; the selection is sorted, a sub-multiset of the merged rows, ⌊m/2⌋ long and best-first, and it is saved to `<wd>/top.smiles` |
| Topping.HalfCount | src/active_learning/topping.py:59 | `int(m / 2)` is ⌊m/2⌋, and `head` keeps that many |
| Topping.SelectionIdempotent | src/active_learning/topping.py:42-44 | after a successful run, a rerun is skipped and changes nothing |
| Topping.SharedCache | src/active_learning/topping.py:28-31 | for any number of tables in one directory with no cache at the start (every table `main` finds is in `wd`): the first table's top set is computed and cached, every later table reads it back, and the merged rows are that one top set once per table |
| Topping.ReadBackAll | src/active_learning/topping.py:29-31 | when a directory's cache holds a table, the fan-out over tables of that directory reads it back once per table and writes nothing |
| Topping.Repeat | src/active_learning/topping.py:53 | `pd.concat` of one top set n times: n times as long, starting with that set |
| Topping.TopAsWritten | src/active_learning/topping.py:27-38 | as written, with `--percent` parsed as a path: a cached table is read back as in Top; any table without a cache fails, and a readable one with TypeError |
| Topping.TopAllAsWritten | src/active_learning/topping.py:52-53 | the fan-out of `top` as written; when it succeeds the filesystem is unchanged |
| Topping.MergedAsWritten | src/active_learning/topping.py:49-55 | the dispatch over `top` as written: no table found is a ValueError; a success writes nothing |
| Topping.AllCached | src/active_learning/topping.py:29-31 | when every table has its cache, `top` succeeds on all of them, corrected and as written, and the corrected fan-out writes nothing |
| Topping.PercentAsDirectory | src/active_learning/topping.py:17 | on a readable table without a cache, Top succeeds while the code as written raises TypeError |
| Topping.SelectionAsWritten | src/active_learning/topping.py:41-60 | as written (`--percent` a path, `out` unbound): skipped when `top.smiles` exists; every other run ends in an error, and in NameError for `out` whenever the tables were read |
| Topping.OutputNeverWritten | src/active_learning/topping.py:60 | when every found table already has its cache, TopSelection writes `top.smiles` while the code as written raises NameError for `out` at line 60 |
| Topping.UncachedFailsFirst | src/active_learning/topping.py:36 | when the first found table is readable but has no cache, the code as written stops with the TypeError of line 36 before line 60 |
| Scoring.CsvPath | src/active_learning/scoring.py:28 | the per-file CSV sits beside its docking file; its name ends with `.csv`, begins with the docking file's stem and is exactly as long as the two together |
| Scoring.CsvPathIsCsv | src/active_learning/scoring.py:28 | the per-file output's name ends with `.csv` |
| Scoring.CsvPathInjective | src/active_learning/scoring.py:28 | two different `*.docking.sdf` files never share a CSV path |
| Scoring.CsvNotDocking | src/active_learning/scoring.py:47-51 | a CSV the stage writes is neither a `*.docking.sdf` file nor the training table |
| Scoring.ScoreLine | src/active_learning/scoring.py:33-36 | a record yields a line iff it converts and has both `score` and `_Name`; the line is `smiles,_Name,score` |
| Scoring.LineOf | src/active_learning/scoring.py:31-36 | one supplier item contributes at most one line; NoLines and LinesFromRecords state which over a file |
| Scoring.ScoreLines | src/active_learning/scoring.py:30-38 | a file gives at most one line per record |
| Scoring.ScoreLinesAppend | src/active_learning/scoring.py:31-38 | lines are built record by record: a file's lines are its parts' lines, in order |
| Scoring.SkipOne | src/active_learning/scoring.py:31-38 | an unreadable or failing record is dropped, and the records around it still give their lines |
| Scoring.NoLines | src/active_learning/scoring.py:39 | a file gives no line iff none of its records is usable |
| Scoring.LinesFromRecords | src/active_learning/scoring.py:31-36 | every line comes from a usable record of the file |
| Scoring.Parse | src/active_learning/scoring.py:26-43 | the loop yields the file's lines; the CSV is written with them only when there is at least one; the CSV path is returned either way |
| Scoring.ParseEffect | src/active_learning/scoring.py:39-41 | one `parse` leaves every file except its CSV as it was; when a line survived, the CSV holds exactly the file's lines, whatever was there before, and no other path is created; otherwise nothing is written |
| Scoring.ParsedAll | src/active_learning/scoring.py:54 | the fan-out of `parse` keeps every existing path; ParsedAllWritesCsv and ParsedAllContent state what changes, and ParseEach is proved to produce it |
| Scoring.ParseEach | src/active_learning/scoring.py:54 | the fan-out returns each file's CSV path and applies each file's `parse` in list order |
| Scoring.ScoreDocked | src/active_learning/scoring.py:46-54 | with `train.smiles.score.csv` present, nothing is parsed or changed; otherwise exactly the `*.docking.sdf` entries are parsed |
| Scoring.ParsedAllWritesCsv | src/active_learning/scoring.py:54 | the stage removes no file, and every file it creates or changes is a `.csv` |
| Scoring.ParsedAllContent | src/active_learning/scoring.py:54 | among distinct docking files, each one with a usable record ends with a CSV holding exactly its own lines |
| Sampling.OutputPath | src/active_learning/sampling.py:32 | the output is `outdir / <library file name>` |
| Sampling.Sample | src/active_learning/sampling.py:31-41 | an existing output: nothing is written; otherwise exactly one sample of the library at that fraction is written to it; the output path is returned either way |
| Sampling.SampleEffect | src/active_learning/sampling.py:33-38 | one `sampling` adds only its output path, keeps every existing file as it was, and leaves an existing sample untouched; Sample is proved to produce it |
| Sampling.SampledAll | src/active_learning/sampling.py:49 | the fan-out keeps every existing path; SampledAllKeeps, SampledAllWrites, AllPresent and SampledAllIdempotent state the rest, and SampleEach is proved to produce it |
| Sampling.PoolSize | src/active_learning/sampling.py:46 | the pool size is min(file count, CPU count) |
| Sampling.SampleEach | src/active_learning/sampling.py:49 | the fan-out returns each library's output path and applies each `sampling` in list order |
| Sampling.SampleLibraries | src/active_learning/sampling.py:44-50 | the libraries with the extension are sampled, with a pool of min(count, cpus) workers |
| Sampling.SampledAllKeeps | src/active_learning/sampling.py:33-34 | sampling never overwrites a file, and every library's output exists afterwards |
| Sampling.SampledAllWrites | src/active_learning/sampling.py:32-38 | every new file is in the output directory, named after a matched library and sampled from it |
| Sampling.AllPresent | src/active_learning/sampling.py:33-34 | when every output exists, the stage changes nothing |
| Sampling.SampledAllIdempotent | src/active_learning/sampling.py:33-34 | a second run of the stage writes nothing |
| Pipeline.DockingFeedsScoring | src/active_learning/docking.py:86 | the consolidated `.docking.sdf` is a file that scoring's glob matches; its CSV is `<batch stem>.docking.csv` beside it |
| Pipeline.PlanFeedsTraining | src/active_learning/scoring.py:47 | the scoring step and the training step share the work directory; training reads the table whose existence makes scoring skip, and no CSV that scoring's `parse` writes is that table |

## Left out

- Nothing in the repository writes `<wd>/docking.commands.txt`, the job file the planned launcher step reads; the model does not connect the planned script to the docking stage.
- `modeling.py` and `evaluating.py` are not part of this model: each only builds one shell command for an external trainer or predictor.
- MolIO, RDKit and Uni-Dock internals are inputs:
  - the parsed ligands, each with whether its per-ligand write succeeded;
  - the supplier's records;
  - the files Uni-Dock writes.
  - A file that is not a structure file is read as holding no poses.
  - `MolIO.sample_sdf` is described by its arguments (source and fraction); its random draw and the sample size are not modelled.
- Docking.Dock: models the Uni-Dock run as writing the given files. As written, `unidock` reads `args.exe`, which the parser never defines, and the command string (docking.py:53-56) is not modelled.
- Docking.DockAllRemovesOnly: states that a run only deletes files, not which ligand files go. When two entries share an output path (same directory and stem, different suffixes), the second finds no output and keeps its ligand file, so "every entry's ligand file is gone" does not hold in general; DockAll's definition gives the exact set.
- The parallel map of `best_pose` (docking.py:82) is modelled as returning one result per manifest ligand, None included, so `if poses:` (docking.py:85) holds whenever the manifest is non-empty.
- `vstool.parallel_cpu_task` is modelled as a sequential map in list order.
  - Concurrency and the order of completion are not modelled.
  - In topping, a later table sees caches that an earlier one wrote.
  - The behaviour of a pool of size 0 (no files) is not modelled beyond the empty map.
- The shell concatenation in scoring.py:57-58 is not modelled. It passes the header text to `cat` as a file name and globs `*.csv` in the output's directory.
- `vstool.submit` job-script templating, argparse parsing and validation, logging and timing are not modelled. The shell text of each script step is reduced to the arguments it passes.
- The sampling command's parser does not accept the `--receptor`, `--center` and `--size` flags that active_learning.py:69-70 passes to it. The model records the flags the planner passes, not the parser's rejection of them.
- Topping.SortByScore: promises no order among equal scores, because pandas' default sort is not stable. The model sorts one particular way, and no lemma depends on which.
- Floating-point behaviour of scores and of `n * percent * 2` is not modelled; exact reals are used.
- The directory listing order, the CPU count and the interpreter location are parameters.

## Findings

| source | as written | input that shows it | evidently intended | confidence | as-written member | corrected member |
|---|---|---|---|---|---|---|
| src/active_learning/docking.py:29-33 | `vstool.setup_logger(...)` is called without binding `logger`, and `ligand_list` starts with `logger.debug` | any batch, e.g. one ligand whose write succeeds | the logger is bound and the manifest is built | not executed | Docking.LoggerUnboundLosesManifest | Docking.LigandList |
| src/active_learning/topping.py:17 | `--percent` is parsed with `vstool.check_dir`, so it is a path (or None), and `n * percent * 2` raises TypeError | any prediction table without a `top.smiles.csv` beside it | `--percent` is a float fraction | not executed | Topping.PercentAsDirectory | Topping.TopComputed |
| src/active_learning/topping.py:60 | the final table is saved to `out`, a name `main` never binds | a work directory without `top.smiles` whose prediction table has a readable `top.smiles.csv` beside it (without the cache, the TypeError of line 36 comes first) | the selection is saved to `output` (`<wd>/top.smiles`) | not executed | Topping.OutputNeverWritten | Topping.TopSelection |
