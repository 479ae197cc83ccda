/** The per-task pipeline: stage A, then stage B, then relocation of the
    artifact, with every outcome only logged. External processes are given
    as their observable outcomes (`StageRun`), the filesystem as two
    booleans (`Relocation`), and each task's spawns and printed lines are
    returned as events. */
module Pipeline {
  import opened Format
  import opened TaskState

  /** What happens when one external process runs: the clock when it is
      spawned, what its two readers read, what `wait` yields, and the clock
      when the worker reads the elapsed time after `wait`. */
  datatype StageRun = StageRun(
    spawnedAt: nat,
    stdout: seq<LineRead>,
    stderr: seq<LineRead>,
    exit: ExitOutcome,
    exitedAt: nat)

  /** What the filesystem does at relocation time. */
  datatype Relocation = Relocation(artifactExists: bool, renameSucceeds: bool)

  /** Everything the outside world decides for one task. */
  datatype TaskRun = TaskRun(mxdys: StageRun, sligocki: StageRun, relocation: Relocation)

  datatype Stage = Mxdys | Sligocki

  /** Observable effects: a spawned process, or a line printed on stdout or stderr. */
  datatype Event =
    | Spawned(command: Command)
    | StageFinished(stage: Stage, id: u32, elapsed: nat, exitText: string)
    | MoveFailed(from: Path, to: Path)
    | NotFound(path: Path)
    | WorkerFinished(worker: nat, lastLine: string)

  /** The markers one task moves through, whatever its outcomes. */
  function TaskTrace(id: u32): seq<TaskKind> {
    [MxdysEnum(id), SligockiEnum(id), MoveFile]
  }

  /** The stdout lines both stages of a task produce, in order. */
  function TaskStdout(run: TaskRun): seq<string> {
    Texts(run.mxdys.stdout) + Texts(run.sligocki.stdout)
  }

  function StageEvents(stage: Stage, id: u32, command: Command, r: StageRun): seq<Event> {
    [Spawned(command), StageFinished(stage, id, ElapsedSince(r.spawnedAt, r.exitedAt), ExitString(r.exit))]
  }

  /** The diagnostics of the relocation step. */
  function RelocationEvents(id: u32, r: Relocation): seq<Event> {
    if r.artifactExists then
      if r.renameSucceeds then [] else [MoveFailed(ArtifactSource(id), ArtifactTarget(id))]
    else [NotFound(ArtifactSource(id))]
  }

  /** Everything one task spawns and prints. */
  function TaskEvents(id: u32, run: TaskRun): seq<Event> {
    StageEvents(Mxdys, id, MxdysCommand(id), run.mxdys)
    + StageEvents(Sligocki, id, SligockiCommand(id), run.sligocki)
    + RelocationEvents(id, run.relocation)
  }

  /** Relocation is silent exactly when the artifact exists and the rename
      succeeds; otherwise it prints one diagnostic naming the artifact, and
      nothing else happens. */
  lemma RelocationDiagnostics(id: u32, r: Relocation)
    ensures RelocationEvents(id, r) == [] <==> r.artifactExists && r.renameSucceeds
    ensures !r.artifactExists ==> RelocationEvents(id, r) == [NotFound(Path(WorkingDir, ArtifactName(id)))]
    ensures r.artifactExists && !r.renameSucceeds ==>
      RelocationEvents(id, r) == [MoveFailed(Path(WorkingDir, ArtifactName(id)), Path(CompletedDir, ArtifactName(id)))]
  {
  }

  /** The exit outcomes of the two stages reach only the two logged exit
      texts: every other event of the task is the same whatever they are. */
  lemma OutcomesOnlyReachTheLog(id: u32, run: TaskRun, exitA: ExitOutcome, exitB: ExitOutcome)
    ensures var run' := run.(mxdys := run.mxdys.(exit := exitA), sligocki := run.sligocki.(exit := exitB));
      var e, e' := TaskEvents(id, run), TaskEvents(id, run');
      |e| == |e'|
      && (forall k :: 0 <= k < |e| && k != 1 && k != 3 ==> e[k] == e'[k])
      && e'[1] == e[1].(exitText := ExitString(exitA))
      && e'[3] == e[3].(exitText := ExitString(exitB))
  {
  }

  /** `ProcessWithBuffer::new` followed by the two reader threads running to
      end of stream: reset the start time, then capture stdout and stderr. */
  method StartProcess(info: TaskInfo, r: StageRun)
    modifies info
    ensures info.startTime == r.spawnedAt
    ensures info.outBuf == Latest(old(info.outBuf) + Texts(r.stdout))
    ensures info.errBuf == old(info.errBuf) + Texts(r.stderr)
    ensures info.kind == old(info.kind) && info.kinds == old(info.kinds)
  {
    info.ResetStartTime(r.spawnedAt);
    info.ReadStdout(r.stdout);
    info.ReadStderr(r.stderr);
  }

  /** `start_mxdys_task`: mark stage A, clear stderr, then start the process. */
  method StartMxdysTask(id: u32, info: TaskInfo, r: StageRun) returns (command: Command)
    modifies info
    ensures command == MxdysCommand(id)
    ensures info.kind == MxdysEnum(id) && info.kinds == old(info.kinds) + [MxdysEnum(id)]
    ensures info.startTime == r.spawnedAt
    ensures info.outBuf == Latest(old(info.outBuf) + Texts(r.stdout))
    ensures info.errBuf == Texts(r.stderr)
  {
    command := MxdysCommand(id);
    info.BeginStage(MxdysEnum(id));
    StartProcess(info, r);
  }

  /** `start_sligocki_task`: mark stage B, clear stderr, then start the process. */
  method StartSligockiTask(id: u32, info: TaskInfo, r: StageRun) returns (command: Command)
    modifies info
    ensures command == SligockiCommand(id)
    ensures info.kind == SligockiEnum(id) && info.kinds == old(info.kinds) + [SligockiEnum(id)]
    ensures info.startTime == r.spawnedAt
    ensures info.outBuf == Latest(old(info.outBuf) + Texts(r.stdout))
    ensures info.errBuf == Texts(r.stderr)
  {
    command := SligockiCommand(id);
    info.BeginStage(SligockiEnum(id));
    StartProcess(info, r);
  }

  /** Stage A of `combined_enumeration`: start it, wait, and log its
      elapsed time and exit text. */
  method RunMxdysStage(id: u32, info: TaskInfo, r: StageRun) returns (events: seq<Event>)
    modifies info
    ensures info.kind == MxdysEnum(id) && info.kinds == old(info.kinds) + [MxdysEnum(id)]
    ensures info.startTime == r.spawnedAt
    ensures info.outBuf == Latest(old(info.outBuf) + Texts(r.stdout))
    ensures info.errBuf == Texts(r.stderr)
    ensures events == StageEvents(Mxdys, id, MxdysCommand(id), r)
  {
    var command := StartMxdysTask(id, info, r);
    var exitText := ExitString(r.exit);
    var elapsed := ElapsedSince(info.startTime, r.exitedAt);
    events := [Spawned(command), StageFinished(Mxdys, id, elapsed, exitText)];
  }

  /** Stage B of `combined_enumeration`. */
  method RunSligockiStage(id: u32, info: TaskInfo, r: StageRun) returns (events: seq<Event>)
    modifies info
    ensures info.kind == SligockiEnum(id) && info.kinds == old(info.kinds) + [SligockiEnum(id)]
    ensures info.startTime == r.spawnedAt
    ensures info.outBuf == Latest(old(info.outBuf) + Texts(r.stdout))
    ensures info.errBuf == Texts(r.stderr)
    ensures events == StageEvents(Sligocki, id, SligockiCommand(id), r)
  {
    var command := StartSligockiTask(id, info, r);
    var exitText := ExitString(r.exit);
    var elapsed := ElapsedSince(info.startTime, r.exitedAt);
    events := [Spawned(command), StageFinished(Sligocki, id, elapsed, exitText)];
  }

  /** The relocation step: move the artifact if it exists, and print a
      diagnostic when it is missing or the move fails. It never fails. */
  method RelocateArtifact(id: u32, r: Relocation) returns (events: seq<Event>)
    ensures events == RelocationEvents(id, r)
  {
    var name := ArtifactName(id);
    var source := Path(WorkingDir, name);
    var target := Path(CompletedDir, name);
    if r.artifactExists {
      events := if r.renameSucceeds then [] else [MoveFailed(source, target)];
    } else {
      events := [NotFound(source)];
    }
  }

  /** `combined_enumeration`: the marker goes through stage A, stage B and
      `MoveFile` whatever the outcomes; the record ends holding the latest
      stdout lines of the whole task and the stderr of stage B; the task
      always completes, missing artifacts and failed moves only print. */
  method CombinedEnumeration(id: u32, info: TaskInfo, run: TaskRun) returns (events: seq<Event>)
    modifies info
    ensures info.kinds == old(info.kinds) + TaskTrace(id)
    ensures info.kind == MoveFile
    ensures info.outBuf == Latest(old(info.outBuf) + TaskStdout(run))
    ensures info.errBuf == Texts(run.sligocki.stderr)
    ensures info.startTime == run.sligocki.spawnedAt
    ensures events == TaskEvents(id, run)
  {
    ghost var out0 := info.outBuf;
    var eventsA := RunMxdysStage(id, info, run.mxdys);
    var eventsB := RunSligockiStage(id, info, run.sligocki);
    LatestOfLatest(out0 + Texts(run.mxdys.stdout), Texts(run.sligocki.stdout));
    AppendAssoc(out0, Texts(run.mxdys.stdout), Texts(run.sligocki.stdout));
    info.SetKind(MoveFile);
    var eventsC := RelocateArtifact(id, run.relocation);
    events := eventsA + eventsB + eventsC;
  }
}
