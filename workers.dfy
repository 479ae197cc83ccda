/** The worker pool: workers that drain a shared FIFO queue of task ids,
    running the pipeline for each and marking themselves `Done` once the
    queue is empty, and the group queries over them. Threads run as
    sequential steps; what the outside world does for a task is given by
    `world`, a function of the task id. */
module Workers {
  import opened Format
  import opened TaskState
  import opened Pipeline

  datatype Option<T> = None | Some(value: T)

  /** `out_buf.back().unwrap_or("buffer empty")`. */
  function LastLine(buf: seq<string>): (line: string)
    ensures buf == [] ==> line == "buffer empty"
    ensures buf != [] ==> line == buf[|buf| - 1]
  {
    if buf == [] then "buffer empty" else buf[|buf| - 1]
  }

  /** The markers a worker goes through for the tasks `ids`, in order. */
  function Trace(ids: seq<u32>): seq<TaskKind>
    decreases |ids|
  {
    if ids == [] then [] else Trace(ids[..|ids| - 1]) + TaskTrace(ids[|ids| - 1])
  }

  /** The stdout lines the tasks `ids` produce, in order. */
  function Stdout(ids: seq<u32>, world: u32 -> TaskRun): seq<string>
    decreases |ids|
  {
    if ids == [] then [] else Stdout(ids[..|ids| - 1], world) + TaskStdout(world(ids[|ids| - 1]))
  }

  /** Everything the tasks `ids` spawn and print, in order. */
  function Events(ids: seq<u32>, world: u32 -> TaskRun): seq<Event>
    decreases |ids|
  {
    if ids == [] then [] else Events(ids[..|ids| - 1], world) + TaskEvents(ids[|ids| - 1], world(ids[|ids| - 1]))
  }

  /** Running one more task extends the markers, stdout and events of a
      run of tasks by that task's. */
  lemma TraceSnoc(ids: seq<u32>, id: u32)
    ensures Trace(ids + [id]) == Trace(ids) + TaskTrace(id)
  {
    assert (ids + [id])[..|ids|] == ids;
  }

  lemma StdoutSnoc(ids: seq<u32>, id: u32, world: u32 -> TaskRun)
    ensures Stdout(ids + [id], world) == Stdout(ids, world) + TaskStdout(world(id))
  {
    assert (ids + [id])[..|ids|] == ids;
  }

  lemma EventsSnoc(ids: seq<u32>, id: u32, world: u32 -> TaskRun)
    ensures Events(ids + [id], world) == Events(ids, world) + TaskEvents(id, world(id))
  {
    assert (ids + [id])[..|ids|] == ids;
  }

  /** The ring buffer after one more task is the latest lines of
      everything up to and including that task. */
  lemma LatestStep(base: seq<string>, ids: seq<u32>, id: u32, world: u32 -> TaskRun)
    ensures Latest(Latest(base + Stdout(ids, world)) + TaskStdout(world(id)))
         == Latest(base + Stdout(ids + [id], world))
  {
    var a := base + Stdout(ids, world);
    var t := TaskStdout(world(id));
    StdoutSnoc(ids, id, world);
    LatestOfLatest(a, t);
    AppendAssoc(base, Stdout(ids, world), t);
  }

  /** Moving the front of `queue` to the back of `done` keeps their concatenation. */
  lemma TakeFront<T>(done: seq<T>, queue: seq<T>)
    requires queue != []
    ensures done + [queue[0]] + queue[1..] == done + queue
  {
    assert queue == [queue[0]] + queue[1..];
    AppendAssoc(done, [queue[0]], queue[1..]);
  }

  /** How far a worker's loop has got: `done` are the ids it has taken
      from the queue `q0`, `queue` is what is left, and its record and
      output reflect exactly the tasks `done`. */
  ghost predicate Progress(q0: seq<u32>, k0: seq<TaskKind>, o0: seq<string>, world: u32 -> TaskRun,
                           done: seq<u32>, queue: seq<u32>, kinds: seq<TaskKind>, out: seq<string>, events: seq<Event>)
  {
    q0 == done + queue
    && kinds == k0 + Trace(done)
    && out == Latest(o0 + Stdout(done, world))
    && events == Events(done, world)
  }

  /** One more task taken from the front of the queue keeps `Progress`. */
  lemma Advance(q0: seq<u32>, k0: seq<TaskKind>, o0: seq<string>, world: u32 -> TaskRun,
                done: seq<u32>, queue: seq<u32>, kinds: seq<TaskKind>, out: seq<string>, events: seq<Event>,
                ev: seq<Event>)
    requires Progress(q0, k0, o0, world, done, queue, kinds, out, events)
    requires queue != []
    ensures var id := queue[0];
      Progress(q0, k0, o0, world, done + [id], queue[1..], kinds + TaskTrace(id),
               Latest(out + TaskStdout(world(id))), events + TaskEvents(id, world(id)))
  {
    var id := queue[0];
    TraceSnoc(done, id);
    EventsSnoc(done, id, world);
    LatestStep(o0, done, id, world);
    TakeFront(done, queue);
    AppendAssoc(k0, Trace(done), TaskTrace(id));
  }

  /** What worker i leaves behind once it has run the tasks `q0`: its ring
      buffer holds the latest stdout lines of `o0` and of those tasks, and
      it has spawned and printed everything the tasks do, then its last
      stdout line. */
  ghost predicate Drained(i: nat, q0: seq<u32>, o0: seq<string>, world: u32 -> TaskRun, out: seq<string>, events: seq<Event>) {
    out == Latest(o0 + Stdout(q0, world))
    && events == Events(q0, world) + [WorkerFinished(i, LastLine(out))]
  }

  /** Worker 0's output, the tasks' events `e` and its final line, followed
      by the other workers' final lines `rest`. */
  lemma JoinFinalLines(e: seq<Event>, last0: string, first: seq<Event>, rest: seq<Event>)
    requires first == e + [WorkerFinished(0, last0)]
    ensures |first + rest| == |e| + 1 + |rest|
    ensures (first + rest)[..|e|] == e
    ensures (first + rest)[|e|] == WorkerFinished(0, last0)
    ensures forall j :: |e| < j < |first + rest| ==> (first + rest)[j] == rest[j - |e| - 1]
  {
    assert (first + rest)[..|e|] == first[..|e|];
  }

  /** An empty queue ends the loop with everything in `q0` done. */
  lemma Finish(q0: seq<u32>, k0: seq<TaskKind>, o0: seq<string>, world: u32 -> TaskRun,
               done: seq<u32>, queue: seq<u32>, kinds: seq<TaskKind>, out: seq<string>, events: seq<Event>)
    requires Progress(q0, k0, o0, world, done, queue, kinds, out, events)
    requires queue == []
    ensures kinds == k0 + Trace(q0)
    ensures out == Latest(o0 + Stdout(q0, world))
    ensures events == Events(q0, world)
  {
    assert done == q0;
  }

  /** A worker's markers for a run of tasks are three per task, stage A,
      stage B, then `MoveFile`, in task order; neither `Done` nor `Uninit`
      is among them. */
  lemma {:induction false} TraceLayout(ids: seq<u32>)
    ensures |Trace(ids)| == 3 * |ids|
    ensures forall k :: 0 <= k < |ids| ==>
      Trace(ids)[3 * k] == MxdysEnum(ids[k])
      && Trace(ids)[3 * k + 1] == SligockiEnum(ids[k])
      && Trace(ids)[3 * k + 2] == MoveFile
    ensures Done !in Trace(ids) && Uninit !in Trace(ids)
    decreases |ids|
  {
    if ids != [] {
      var n := |ids| - 1;
      TraceLayout(ids[..n]);
      var t := Trace(ids);
      assert t == Trace(ids[..n]) + TaskTrace(ids[n]);
      forall k | 0 <= k < |ids|
        ensures t[3 * k] == MxdysEnum(ids[k]) && t[3 * k + 1] == SligockiEnum(ids[k]) && t[3 * k + 2] == MoveFile
      {
        if k < n {
          assert ids[..n][k] == ids[k];
        }
      }
    }
  }

  /** One status line of `print_status`: the lead marker, the worker id,
      its marker, the time since its last spawn, and its last stdout line. */
  datatype StatusLine = StatusLine(lead: string, worker: nat, kind: TaskKind, elapsed: nat, lastLine: string)

  function StatusOf(lead: string, worker: nat, s: Info, now: nat): StatusLine {
    StatusLine(lead, worker, s.kind, ElapsedSince(s.startTime, now), LastLine(s.outBuf))
  }

  /** The indices of the workers that are not `Done`, in increasing order. */
  function Pending(infos: seq<Info>): (p: seq<nat>)
    ensures forall k :: 0 <= k < |p| ==> p[k] < |infos| && infos[p[k]].kind != Done
    ensures forall j :: 0 <= j < |infos| && infos[j].kind != Done ==> j in p
    ensures forall a, b :: 0 <= a < b < |p| ==> p[a] < p[b]
    decreases |infos|
  {
    if infos == [] then []
    else
      var n := |infos| - 1;
      Pending(infos[..n]) + (if infos[n].kind != Done then [n] else [])
  }

  /** The report `print_status` prints for the records `infos`, built the
      way it walks the workers. */
  function StatusLines(infos: seq<Info>, now: nat): seq<StatusLine>
    decreases |infos|
  {
    if infos == [] then []
    else
      var n := |infos| - 1;
      var prev := StatusLines(infos[..n], now);
      if infos[n].kind == Done then prev
      else prev + [StatusOf(if prev == [] then ">" else " ", n, infos[n], now)]
  }

  /** The status report has one line per worker that is not `Done`, in
      worker order; the first line is led by ">" and the others by " ". */
  lemma {:induction false} StatusLinesSpec(infos: seq<Info>, now: nat)
    ensures var p, lines := Pending(infos), StatusLines(infos, now);
      |lines| == |p|
      && forall k :: 0 <= k < |p| ==> lines[k] == StatusOf(if k == 0 then ">" else " ", p[k], infos[p[k]], now)
    decreases |infos|
  {
    if infos != [] {
      var n := |infos| - 1;
      var front := infos[..n];
      StatusLinesSpec(front, now);
      var p0, l0 := Pending(front), StatusLines(front, now);
      var p, lines := Pending(infos), StatusLines(infos, now);
      forall k | 0 <= k < |p0|
        ensures lines[k] == StatusOf(if k == 0 then ">" else " ", p[k], infos[p[k]], now)
      {
        assert p[k] == p0[k] && lines[k] == l0[k];
        assert front[p0[k]] == infos[p0[k]];
      }
      if infos[n].kind != Done {
        assert p == p0 + [n];
        assert lines == l0 + [StatusOf(if l0 == [] then ">" else " ", n, infos[n], now)];
      }
    }
  }

  ghost function SnapshotsOf(ws: seq<Worker>): (s: seq<Info>)
    reads set w | w in ws :: w.info
    ensures |s| == |ws| && forall k :: 0 <= k < |ws| ==> s[k] == ws[k].info.Snapshot()
    decreases |ws|
  {
    if ws == [] then [] else SnapshotsOf(ws[..|ws| - 1]) + [ws[|ws| - 1].info.Snapshot()]
  }

  /** The marker histories of the workers `ws`, in order. */
  ghost function KindsOf(ws: seq<Worker>): (s: seq<seq<TaskKind>>)
    reads set w | w in ws :: w.info
    ensures |s| == |ws| && forall k :: 0 <= k < |ws| ==> s[k] == ws[k].info.kinds
    decreases |ws|
  {
    if ws == [] then [] else KindsOf(ws[..|ws| - 1]) + [ws[|ws| - 1].info.kinds]
  }

  /** A worker thread that has finished without running a task: marked
      `Done` once more after the history `k0`, with its stdout buffer still
      `o0`, its stderr log still `e0` and its start time still `t0`. */
  ghost predicate Retired(info: TaskInfo, k0: seq<TaskKind>, o0: seq<string>, e0: seq<string>, t0: nat)
    reads info
  {
    info.kind == Done && info.kinds == k0 + [Done] && info.outBuf == o0
    && info.errBuf == e0 && info.startTime == t0
  }

  /** A worker: its id and the status record it shares with its readers. */
  class Worker {
    const id: nat
    const info: TaskInfo

    /** `Worker::new`, without its thread: the thread's loop is
        `WorkerGroup.RunWorker`. */
    constructor (id: nat, now: nat)
      ensures this.id == id && fresh(info)
      ensures info.kind == Uninit && info.startTime == now && info.outBuf == [] && info.errBuf == []
      ensures info.kinds == []
    {
      this.id := id;
      info := new TaskInfo(now);
    }
  }

  /** `WorkerGroup`: the workers and the shared queue (`SegQueue`, FIFO). */
  class WorkerGroup {
    var workers: seq<Worker>
    var queue: seq<u32>
    /** The queue as it was handed to the constructor. */
    ghost const seeded: seq<u32>
    /** Every id taken from the queue, in order, by a worker (which runs
        the pipeline for it in the same step) or by `ClearPendingJobs`. */
    ghost var popped: seq<u32>

    ghost function Infos(): set<TaskInfo>
      reads this
    {
      set w | w in workers :: w.info
    }

    /** Worker k has id k and its own record; each seeded entry is popped at
        most once, in order, and nothing is popped that was not seeded. (A worker is marked `Done` only by
        `FinishWorker`, which needs the queue to be empty.) */
    ghost predicate Valid()
      reads this
    {
      (forall k :: 0 <= k < |workers| ==> workers[k].id == k)
      && (forall j, k :: 0 <= j < k < |workers| ==> workers[j].info != workers[k].info)
      && popped + queue == seeded
    }

    ghost function Snapshots(): seq<Info>
      reads this, Infos()
    {
      SnapshotsOf(workers)
    }

    /** `WorkerGroup::new`: workers with ids 0 to size - 1, each with a
        fresh record, sharing the queue `taskIds`. */
    constructor (size: nat, taskIds: seq<u32>, now: nat)
      ensures Valid()
      ensures |workers| == size
      ensures forall k :: 0 <= k < size ==>
        fresh(workers[k].info) && workers[k].info.kind == Uninit && workers[k].info.startTime == now
        && workers[k].info.outBuf == [] && workers[k].info.errBuf == [] && workers[k].info.kinds == []
      ensures queue == taskIds && seeded == taskIds && popped == []
    {
      var ws: seq<Worker> := [];
      for k := 0 to size
        invariant |ws| == k
        invariant forall j :: 0 <= j < k ==>
          ws[j].id == j && fresh(ws[j].info) && ws[j].info.kind == Uninit
          && ws[j].info.startTime == now && ws[j].info.outBuf == [] && ws[j].info.errBuf == [] && ws[j].info.kinds == []
        invariant forall i, j :: 0 <= i < j < k ==> ws[i].info != ws[j].info
      {
        var w := new Worker(k, now);
        ws := ws + [w];
      }
      workers := ws;
      queue := taskIds;
      seeded := taskIds;
      popped := [];
    }

    /** `SegQueue::pop`: the front id, or `None` when the queue is empty. */
    method Pop() returns (r: Option<u32>)
      requires Valid()
      modifies this
      ensures Valid() && workers == old(workers)
      ensures old(queue) == [] ==> r == None && queue == [] && popped == old(popped)
      ensures old(queue) != [] ==>
        r == Some(old(queue)[0]) && queue == old(queue)[1..] && popped == old(popped) + [old(queue)[0]]
    {
      if queue == [] {
        r := None;
      } else {
        r := Some(queue[0]);
        popped := popped + [queue[0]];
        queue := queue[1..];
      }
    }

    /** `_clear_pending_jobs`: pop until the queue is empty. */
    method ClearPendingJobs()
      requires Valid()
      modifies this
      ensures Valid() && workers == old(workers)
      ensures queue == [] && popped == old(popped) + old(queue)
    {
      while queue != []
        invariant Valid() && workers == old(workers)
        invariant popped + queue == old(popped) + old(queue)
        decreases |queue|
      {
        var _ := Pop();
      }
    }

    /** One iteration of a worker thread's loop: pop an id and run the
        pipeline for it, or, on an empty queue, print the final line and
        mark the worker `Done` (the only place `Done` is assigned). */
    method Step(i: nat, world: u32 -> TaskRun) returns (more: bool, events: seq<Event>)
      requires Valid() && i < |workers| && workers[i].info.kind != Done
      modifies this, workers[i].info
      ensures Valid() && workers == old(workers)
      ensures more <==> old(queue) != []
      ensures more ==>
        var id := old(queue)[0];
        var run := world(id);
        queue == old(queue)[1..] && popped == old(popped) + [id]
        && workers[i].info.kind == MoveFile
        && workers[i].info.kinds == old(workers[i].info.kinds) + TaskTrace(id)
        && workers[i].info.outBuf == Latest(old(workers[i].info.outBuf) + TaskStdout(run))
        && workers[i].info.errBuf == Texts(run.sligocki.stderr)
        && workers[i].info.startTime == run.sligocki.spawnedAt
        && events == TaskEvents(id, run)
      ensures !more ==>
        queue == [] && popped == old(popped)
        && workers[i].info.kind == Done
        && workers[i].info.kinds == old(workers[i].info.kinds) + [Done]
        && workers[i].info.outBuf == old(workers[i].info.outBuf)
        && workers[i].info.errBuf == old(workers[i].info.errBuf)
        && workers[i].info.startTime == old(workers[i].info.startTime)
        && events == [WorkerFinished(i, LastLine(old(workers[i].info.outBuf)))]
    {
      var info := workers[i].info;
      var next := Pop();
      match next {
        case Some(id) =>
          events := CombinedEnumeration(id, info, world(id));
          more := true;
        case None =>
          events := FinishWorker(i);
          more := false;
      }
    }

    /** The `None` arm of a worker thread's loop: print the worker's last
        stdout line ("buffer empty" when there is none), then mark it
        `Done`; only the marker changes. */
    method FinishWorker(i: nat) returns (events: seq<Event>)
      requires Valid() && i < |workers| && queue == []
      modifies workers[i].info
      ensures Valid()
      ensures workers[i].info.kind == Done
      ensures workers[i].info.kinds == old(workers[i].info.kinds) + [Done]
      ensures workers[i].info.outBuf == old(workers[i].info.outBuf)
      ensures workers[i].info.errBuf == old(workers[i].info.errBuf)
      ensures workers[i].info.startTime == old(workers[i].info.startTime)
      ensures events == [WorkerFinished(i, LastLine(workers[i].info.outBuf))]
    {
      var info := workers[i].info;
      events := [WorkerFinished(workers[i].id, LastLine(info.outBuf))];
      info.SetKind(Done);
    }

    /** The loop of worker i's thread, run until it breaks: every id left in
        the queue is popped and processed once, in order, then the worker
        is `Done`. */
    method RunWorker(i: nat, world: u32 -> TaskRun) returns (events: seq<Event>)
      requires Valid() && i < |workers| && workers[i].info.kind != Done
      modifies this, workers[i].info
      ensures Valid() && workers == old(workers)
      ensures queue == [] && popped == old(popped) + old(queue)
      ensures workers[i].info.kind == Done
      ensures workers[i].info.kinds == old(workers[i].info.kinds) + Trace(old(queue)) + [Done]
      ensures Drained(i, old(queue), old(workers[i].info.outBuf), world, workers[i].info.outBuf, events)
    {
      var info := workers[i].info;
      ghost var q0, k0, o0 := queue, info.kinds, info.outBuf;
      events := [];
      ghost var done: seq<u32> := [];
      while true
        invariant Valid() && workers == old(workers) && info == workers[i].info
        invariant info.kind != Done
        invariant Progress(q0, k0, o0, world, done, queue, info.kinds, info.outBuf, events)
        decreases |queue|
      {
        ghost var q, kinds, out := queue, info.kinds, info.outBuf;
        ghost var events0 := events;
        var more, ev := Step(i, world);
        events := events + ev;
        if !more {
          Finish(q0, k0, o0, world, done, q, kinds, out, events0);
          return;
        }
        Advance(q0, k0, o0, world, done, q, kinds, out, events0, ev);
        done := done + [q[0]];
      }
    }

    /** `is_done`: true exactly when every worker's marker is `Done`. */
    method IsDone() returns (done: bool)
      ensures done <==> forall k :: 0 <= k < |workers| ==> workers[k].info.kind == Done
    {
      for k := 0 to |workers|
        invariant forall j :: 0 <= j < k ==> workers[j].info.kind == Done
      {
        if workers[k].info.kind != Done {
          return false;
        }
      }
      return true;
    }

    /** `print_status`: one line per worker that is not `Done`, in worker
        order, the first led by ">" and the rest by " ", each showing the
        worker's marker, its time since the last spawn and its last stdout
        line ("buffer empty" when there is none). */
    method PrintStatus(now: nat) returns (lines: seq<StatusLine>)
      requires Valid()
      ensures var infos := Snapshots(); var p := Pending(infos);
        |lines| == |p|
        && forall k :: 0 <= k < |p| ==> lines[k] == StatusOf(if k == 0 then ">" else " ", p[k], infos[p[k]], now)
    {
      ghost var infos := Snapshots();
      lines := [];
      var statusStart := ">";
      for k := 0 to |workers|
        invariant lines == StatusLines(infos[..k], now)
        invariant statusStart == if lines == [] then ">" else " "
      {
        var info := workers[k].info;
        assert infos[..k + 1][..k] == infos[..k];
        if info.kind != Done {
          lines := lines + [StatusLine(statusStart, workers[k].id, info.kind, ElapsedSince(info.startTime, now), LastLine(info.outBuf))];
          statusStart := " ";
        }
      }
      assert infos[..|workers|] == infos;
      StatusLinesSpec(infos, now);
    }

    /** The threads of workers 1 and up, each run once the queue is empty:
        its one loop iteration pops nothing, prints its final line and
        marks it `Done`; worker 0, every buffer and every start time stay
        as they are. */
    method RetireIdle() returns (events: seq<Event>)
      requires Valid() && queue == [] && |workers| > 0
      modifies this, Infos()
      ensures Valid() && workers == old(workers) && queue == [] && popped == old(popped)
      ensures unchanged(workers[0].info)
      ensures forall k :: 0 < k < |workers| ==>
        Retired(workers[k].info, old(workers[k].info.kinds), old(workers[k].info.outBuf),
                old(workers[k].info.errBuf), old(workers[k].info.startTime))
      ensures |events| == |workers| - 1
      ensures forall k :: 0 < k < |workers| ==> events[k - 1] == WorkerFinished(k, LastLine(old(workers[k].info.outBuf)))
    {
      events := [];
      for i := 1 to |workers|
        invariant Valid() && workers == old(workers) && queue == [] && popped == old(popped)
        invariant forall k :: 0 < k < i ==>
          Retired(workers[k].info, old(workers[k].info.kinds), old(workers[k].info.outBuf),
                  old(workers[k].info.errBuf), old(workers[k].info.startTime))
        invariant forall k :: 0 <= k < |workers| && (k == 0 || i <= k) ==> unchanged(workers[k].info)
        invariant |events| == i - 1
        invariant forall k :: 0 < k < i ==> events[k - 1] == WorkerFinished(k, LastLine(old(workers[k].info.outBuf)))
      {
        var next := Pop();
        var ev := FinishWorker(i);
        events := events + ev;
      }
    }

    /** Every worker thread run to the end, one after the other: the first
        drains the queue, running the pipeline for each id in order; each
        then prints its final line and marks itself `Done`. Printed are the
        events of every task, in queue order, then one final line per
        worker, in worker order; only worker 0's buffers and start time change. */
    method RunPool(world: u32 -> TaskRun) returns (events: seq<Event>)
      requires Valid()
      requires forall k :: 0 <= k < |workers| ==> workers[k].info.kind != Done
      modifies this, Infos()
      ensures Valid() && workers == old(workers)
      ensures forall k :: 0 <= k < |workers| ==> workers[k].info.kind == Done
      ensures |workers| > 0 ==>
        queue == [] && popped == old(popped) + old(queue)
        && workers[0].info.kinds == old(workers[0].info.kinds) + Trace(old(queue)) + [Done]
        && workers[0].info.outBuf == Latest(old(workers[0].info.outBuf) + Stdout(old(queue), world))
      ensures forall k :: 0 < k < |workers| ==>
        workers[k].info.kinds == old(workers[k].info.kinds) + [Done]
        && workers[k].info.outBuf == old(workers[k].info.outBuf)
        && workers[k].info.errBuf == old(workers[k].info.errBuf)
        && workers[k].info.startTime == old(workers[k].info.startTime)
      ensures |workers| > 0 ==>
        var e := Events(old(queue), world);
        |events| == |e| + |workers| && events[..|e|] == e
        && forall k :: 0 <= k < |workers| ==> events[|e| + k] == WorkerFinished(k, LastLine(workers[k].info.outBuf))
      ensures |workers| == 0 ==> queue == old(queue) && popped == old(popped) && events == []
    {
      if |workers| == 0 {
        return [];
      }
      ghost var e := Events(queue, world);
      var first := RunWorker(0, world);
      ghost var last0 := LastLine(workers[0].info.outBuf);
      var rest := RetireIdle();
      events := first + rest;
      JoinFinalLines(e, last0, first, rest);
    }
  }

  /** The sequential reading of the program's entry point: seed the queue,
      build the group, let every worker run to the end, then ask `is_done`.
      With at least one worker every seeded id is taken from the queue
      exactly once, in queue order, and goes through the whole pipeline;
      the group reports done. */
  method Supervise(size: nat, taskIds: seq<u32>, world: u32 -> TaskRun, now: nat)
    returns (done: bool, pending: seq<u32>, ghost processed: seq<u32>, ghost traces: seq<seq<TaskKind>>)
    ensures done
    ensures size > 0 ==> pending == [] && processed == taskIds
    ensures size == 0 ==> pending == taskIds && processed == []
    ensures |traces| == size
    ensures size > 0 ==> traces[0] == Trace(taskIds) + [Done]
    ensures forall k :: 0 < k < size ==> traces[k] == [Done]
  {
    var group := new WorkerGroup(size, taskIds, now);
    ghost var k0: seq<TaskKind> := if size > 0 then group.workers[0].info.kinds else [];
    var _ := group.RunPool(world);
    AppendAssoc(k0, Trace(taskIds), [Done]);
    done := group.IsDone();
    pending := group.queue;
    processed := group.popped;
    traces := KindsOf(group.workers);
  }
}
