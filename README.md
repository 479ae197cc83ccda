# bb7x2 worker pool, modelled in Dafny

bb7x2 is a small Rust driver for a Busy Beaver enumeration campaign. It seeds a
FIFO queue of task ids. Then it starts a fixed number of worker threads. Each
worker repeatedly pops a task id and runs a three-step pipeline for it:

1. stage A (`mxdys enum <id>`);
2. stage B (the `Enumerate.py` script, reading `holdouts_<id>.txt` and writing
   `bb7_<id:06>.out.pb`);
3. relocation of that artifact from the working directory to the completed
   directory.

The worker keeps a status record under a lock:

- its current stage marker;
- when the current process was spawned;
- a 20-line ring buffer of the latest stdout lines;
- the stderr lines of the current process.

When the queue is empty, the worker prints its last stdout line and marks itself
`Done`. The main thread polls the group, printing a status report until every
worker is `Done`.

The model has four modules:

- `Format` (format.dfy) holds the pure helpers:
  - decimal rendering and its inverse;
  - the zero-padded artifact name, and the proof that the id can be read back
    from it;
  - the text logged for a finished stage;
  - the two external commands, with main.rs's constants.
- `TaskState` (task_state.dfy) holds the stage marker and the status record.
  - `TaskInfo` is a class whose methods update its fields in place.
  - A ghost history `kinds` records every marker ever assigned.
  - The ring buffer is specified by `Latest`, the most recent 20 lines.
- `Pipeline` (pipeline.dfy) holds `combined_enumeration` and the functions it
  calls.
  - What the outside world does is given as values: a `StageRun` per external
    process and a `Relocation` for the filesystem.
  - Each task's process spawns and the lines it prints are returned as a
    sequence of `Event`s.
- `Workers` (workers.dfy) holds the workers and the `WorkerGroup`:
  - the FIFO queue is a `seq<u32>` field, with ghost `seeded` and `popped`
    histories;
  - a worker thread's loop is `RunWorker`, one iteration being `Step`;
  - the group queries `is_done` and `print_status` are methods;
  - `Supervise` is the sequential reading of `main`: worker count and seeded
    ids are parameters (main.rs uses 5 workers and ids 0 to 9).

The outcomes of task `id` are given by `world(id)`, where `world` is a function
of the task id. Clock readings are `nat` parameters, and elapsed times saturate
at zero.

## Model

| member | source | states |
|---|---|---|
| Format.Decimal | main.rs:243 | the rendering of a task id is a non-empty string of decimal digits with no leading zero except for 0 itself |
| Format.ParseDecimalOfDecimal | main.rs:243 | reading the decimal rendering of n back gives n |
| Format.ParseIgnoresLeadingZeros | main.rs:216 | zero padding does not change the value a digit string spells |
| Format.ZeroPadded | main.rs:216 | the `{:06}` flag yields max(len, 6) characters: zeros followed by the unpadded digits |
| Format.ArtifactName | main.rs:216 | the artifact name is at least as long as "bb7_", six padded digits and ".out.pb" together |
| Format.ArtifactNameLayout | main.rs:216 | the artifact name is "bb7_", at least six digits spelling the id, then ".out.pb" |
| Format.ArtifactNameInjective | main.rs:288-290 | distinct task ids never share an artifact file |
| Format.MxdysCommand | main.rs:242-244 | stage A runs the mxdys executable in the working directory with exactly the arguments `enum` and the plain decimal rendering of the task id, which reads back as the id |
| Format.SligockiCommand | main.rs:207-228 | stage B runs the Python interpreter in the working directory on `Enumerate.py`: 14 arguments, `--infile holdouts_<id>.txt` and `--outfile` naming the task's artifact |
| Format.ArtifactSource | main.rs:288-289 | the artifact is looked for under its name in the directory both stages run in |
| Format.ArtifactTarget | main.rs:288-290 | the artifact moves to the completed directory under the same name, so source and target differ |
| Format.ExitString | main.rs:256-261 | a failed wait logs "already exited", a successful exit "success", any other exit the status's display text |
| Format.OutfileIsRelocatedArtifact | main.rs:212-227 | stage B's only `--outfile` argument names exactly the file the relocation step later looks for and moves, in the directory stage B runs in |
| TaskState.Texts | main.rs:183-189 | each read item stores its line, or for a read error the error's text, in order |
| TaskState.LatestIsSuffix | main.rs:138 | the ring buffer's content is the last min(n, 20) lines, in their original order |
| TaskState.LatestOfLatest | main.rs:138 | trimming to 20 lines before appending changes nothing once the result is trimmed again |
| TaskState.PushBack | main.rs:186-187 | one `push_back` leaves the latest 20 lines of the old content plus the new line |
| TaskState.PushAllIsLatest | main.rs:183-189 | any sequence of pushes leaves the latest 20 lines of old content plus all pushed lines |
| TaskState.ElapsedSince | main.rs:262-265 | elapsed time is now minus the start time, and never negative |
| TaskState.TaskInfo.constructor | main.rs:143-150 | a fresh record is `Uninit` with empty buffers, started now |
| TaskState.TaskInfo.BeginStage | main.rs:245-249 | setting a stage marker clears the stderr log and leaves start time and stdout buffer alone |
| TaskState.TaskInfo.SetKind | main.rs:284-287 | assigning `MoveFile` or `Done` changes only the marker |
| TaskState.TaskInfo.ResetStartTime | main.rs:160-163 | the start time is reset before spawning, nothing else changes |
| TaskState.TaskInfo.PushStdout | main.rs:184-188 | one stdout item is pushed into the ring buffer, nothing else changes |
| TaskState.TaskInfo.PushStderr | main.rs:195-199 | one stderr item is appended to the stderr log, nothing else changes |
| TaskState.TaskInfo.ReadStdout | main.rs:182-190 | after the stdout reader, the buffer is the old one with every item read pushed in turn, which is the latest 20 of the old lines followed by all items read |
| TaskState.TaskInfo.ReadStderr | main.rs:193-201 | after the stderr reader, the log is the old log followed by every item read, unbounded |
| Pipeline.StartProcess | main.rs:159-204 | spawning resets the start time, then both readers fill the record; marker untouched |
| Pipeline.StartMxdysTask | main.rs:241-251 | stage A runs `enum <id>` in the working directory with marker `MxdysEnum(id)` and a stderr log holding only this process's lines |
| Pipeline.StartSligockiTask | main.rs:231-239 | stage B runs the script command with marker `SligockiEnum(id)` and a stderr log holding only this process's lines |
| Pipeline.RunMxdysStage | main.rs:255-266 | stage A records its spawn, then logs its elapsed time since spawn and its exit text |
| Pipeline.RunSligockiStage | main.rs:270-281 | stage B records its spawn, then logs its elapsed time since spawn and its exit text |
| Pipeline.RelocateArtifact | main.rs:288-298 | relocation prints "Could not find" for a missing artifact, "failed to move" for a failed rename, nothing otherwise |
| Pipeline.RelocationDiagnostics | main.rs:291-298 | relocation is silent exactly when the artifact exists and the rename succeeds, and otherwise prints exactly one diagnostic naming the artifact's paths |
| Pipeline.OutcomesOnlyReachTheLog | main.rs:253-299 | the stages' exit outcomes change only the two logged exit texts; the task goes on to stage B and relocation whatever they are |
| Pipeline.CombinedEnumeration | main.rs:253-299 | a task moves through `MxdysEnum`, `SligockiEnum`, `MoveFile`; the buffer ends with the latest stdout of both stages, the stderr log with stage B's; the events are the task's |
| Workers.LastLine | main.rs:64 | the last line shown is the newest stdout line, or "buffer empty" when the buffer has none |
| Workers.TraceLayout | main.rs:57-69 | a worker's markers are three per task, in queue order, and never `Done` or `Uninit` while tasks remain |
| Workers.Pending | main.rs:97-99 | the workers listed by the status report are exactly those not `Done`, in increasing order |
| Workers.StatusLinesSpec | main.rs:95-106 | the report has one line per pending worker, in worker order; the first is led by ">" and the rest by " " |
| Workers.Worker.constructor | main.rs:53-56 | a worker has its id and a fresh `Uninit` record of its own |
| Workers.WorkerGroup.constructor | main.rs:80-87 | workers 0 to size - 1, each with its own fresh record, sharing the seeded queue |
| Workers.WorkerGroup.Pop | main.rs:58 | `pop` yields the queue's front and removes it, or `None` on an empty queue |
| Workers.WorkerGroup.ClearPendingJobs | main.rs:89-93 | popping until empty discards every pending id, in order |
| Workers.WorkerGroup.Step | main.rs:58-67 | one iteration runs the pipeline for the front id, or on an empty queue prints the last stdout line and marks the worker `Done` |
| Workers.WorkerGroup.FinishWorker | main.rs:62-67 | on an empty queue the worker prints "finished" with its last stdout line and becomes `Done`, its buffers and start time untouched |
| Workers.WorkerGroup.RunWorker | main.rs:57-69 | a worker thread pops each remaining id once, in order, and runs the pipeline for it; its record holds the markers and latest stdout of exactly those tasks, then it is `Done` |
| Workers.WorkerGroup.IsDone | main.rs:108-116 | true exactly when every worker is `Done` |
| Workers.WorkerGroup.PrintStatus | main.rs:95-106 | the report lists each worker not `Done`, with its marker, elapsed time since its last spawn and last stdout line ("buffer empty" if none) |
| Workers.WorkerGroup.RetireIdle | main.rs:57-67 | once the queue is empty, each later worker's thread finds it empty at once: it prints its last stdout line and becomes `Done` with its buffers and start time unchanged |
| Workers.WorkerGroup.RunPool | main.rs:83-85 | with the workers run one after another, every queued id is popped exactly once in order and every worker ends `Done`. Worker 0's buffer holds the latest stdout of all tasks, and the other buffers are unchanged. The events are each task's spawns and printed lines, in queue order, then one "finished" line per worker, in worker order, with its last stdout line. The other workers also keep their stderr logs and start times |
| Workers.Supervise | main.rs:18-37 | with at least one worker every seeded id goes through the pipeline exactly once, in order, and `is_done` reports true; with none the queue stays as seeded |

## Left out

- Threads, `Arc` and `Mutex` are not modelled. Each lock-protected critical section is one method call, and a worker's threads run as sequential steps.
- The two reader threads of a process are taken to reach end of stream before `wait` returns. A stdout line that arrives after the elapsed time is read is folded into the same stage. A stage A stderr line that arrives after stage B's `err_buf.clear()` is not modelled.
- Workers.WorkerGroup.RunPool: states one schedule only, each worker's thread run to its end before the next thread starts, so worker 0 takes every task. Interleavings of concurrent workers are not modelled.
- Workers.Supervise: replaces `main`'s polling loop with one `is_done` call after `RunPool`. The 10-second `thread::sleep`, the periodic `print_status` calls, `join_all` and the final "All done" line with its `pretty_duration` text are left out.
- Spawn failures are not modelled; in the source they panic through `expect("failed to start job")`.
- `world` is a function of the task id, so a task id seeded twice gets the same outcomes both times.
- Format.ExitString: the `Display` text of a non-success `ExitStatus` is taken as given in `ExitOutcome.Exited`.
- `Path::exists` and `fs::rename` are reduced to the two booleans of `Relocation`.
- The `{:?}` rendering of paths inside diagnostics is not modelled; a diagnostic carries the `Path` values themselves.
- Workers.WorkerGroup.PrintStatus: the text layout of status lines (`{:?}` of the marker, `{:.2?}` of the duration) is not modelled; a line is a `StatusLine` value.
- `Instant` is a `nat` clock reading passed in by the caller.
- The `PYENV_VIRTUALENV` environment variable is `None` in the source. The branch that sets `PYENV_VERSION` is dead and is not modelled.
- The internals of `CircularBuffer` are not modelled; the buffer is a sequence of at most 20 lines, specified by `Latest`.
- `SegQueue`'s lock-free implementation is not modelled; the queue is a FIFO sequence.
- `join_all` is not modelled; it only joins threads.
