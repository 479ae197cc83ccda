/** The per-worker status record: which stage the worker is in, when the
    current external process was spawned, the latest stdout lines (a ring
    buffer of 20) and the stderr lines of the current process. */
module TaskState {
  import opened Format

  /** The stage marker. */
  datatype TaskKind =
    | Uninit
    | MxdysEnum(id: u32)
    | SligockiEnum(id: u32)
    | MoveFile
    | Done

  /** Capacity of the stdout ring buffer. */
  const OutCapacity: nat := 20

  /** Contents of the stdout ring buffer: never more than `OutCapacity` lines. */
  type OutLines = s: seq<string> | |s| <= OutCapacity

  /** One item yielded by a line reader: a line, or a read error. */
  datatype LineRead = Line(text: string) | ReadError(message: string)

  /** What a reader stores for one item: the line, or the error's text. */
  function LineText(r: LineRead): string {
    match r
    case Line(s) => s
    case ReadError(e) => e
  }

  function Texts(rs: seq<LineRead>): (ts: seq<string>)
    ensures |ts| == |rs| && forall k :: 0 <= k < |rs| ==> ts[k] == LineText(rs[k])
  {
    seq(|rs|, k requires 0 <= k < |rs| => LineText(rs[k]))
  }

  /** Reading one more item extends the texts read so far by its text. */
  lemma TextsPrefix(rs: seq<LineRead>, k: nat)
    requires k < |rs|
    ensures Texts(rs[..k + 1]) == Texts(rs[..k]) + [LineText(rs[k])]
  {
  }

  lemma AppendAssoc<T>(a: seq<T>, b: seq<T>, c: seq<T>)
    ensures a + b + c == a + (b + c)
  {
  }

  /** The most recent `OutCapacity` lines of `lines`. */
  function Latest(lines: seq<string>): OutLines {
    if |lines| <= OutCapacity then lines else lines[|lines| - OutCapacity..]
  }

  /** `Latest` keeps min(|lines|, 20) lines, and they are the last lines of
      `lines` in their original order. */
  lemma LatestIsSuffix(lines: seq<string>)
    ensures var r := Latest(lines);
      |r| == (if |lines| <= OutCapacity then |lines| else OutCapacity)
      && r == lines[|lines| - |r|..]
  {
  }

  /** Keeping the latest lines, then appending more and keeping the latest
      again, is the same as keeping the latest of everything. */
  lemma LatestOfLatest(xs: seq<string>, ys: seq<string>)
    ensures Latest(Latest(xs) + ys) == Latest(xs + ys)
  {
    var l := Latest(xs);
    var a := Latest(l + ys);
    var b := Latest(xs + ys);
    LatestIsSuffix(xs);
    LatestIsSuffix(l + ys);
    LatestIsSuffix(xs + ys);
    assert |a| == |b|;
    forall k | 0 <= k < |a|
      ensures a[k] == b[k]
    {
      var i := |l + ys| - |a| + k;
      var j := |xs + ys| - |b| + k;
      if i < |l| {
        assert j < |xs|;
        assert (l + ys)[i] == l[i] == xs[|xs| - |l| + i];
      } else {
        assert (l + ys)[i] == ys[i - |l|] == (xs + ys)[j];
      }
    }
  }

  /** `CircularBuffer::push_back`: append at the back, and when the buffer
      is full, evict the front line first. */
  function PushBack(buf: OutLines, line: string): (r: OutLines)
    ensures r == Latest(buf + [line])
  {
    if |buf| == OutCapacity then buf[1..] + [line] else buf + [line]
  }

  /** Any sequence of pushes, one line at a time. */
  function PushAll(buf: OutLines, lines: seq<string>): OutLines
    decreases |lines|
  {
    if lines == [] then buf else PushAll(PushBack(buf, lines[0]), lines[1..])
  }

  /** After pushing `lines` one by one, the buffer holds the last
      min(|buf| + |lines|, 20) lines of `buf + lines`, in order. */
  lemma {:induction false} PushAllIsLatest(buf: OutLines, lines: seq<string>)
    ensures PushAll(buf, lines) == Latest(buf + lines)
    decreases |lines|
  {
    if lines == [] {
      assert buf + lines == buf;
    } else {
      PushAllIsLatest(PushBack(buf, lines[0]), lines[1..]);
      LatestOfLatest(buf + [lines[0]], lines[1..]);
      assert buf + [lines[0]] + lines[1..] == buf + lines;
    }
  }

  /** `Instant::elapsed`: the time since `start`, never negative. */
  function ElapsedSince(start: nat, now: nat): (d: nat)
    ensures start <= now ==> start + d == now
    ensures now < start ==> d == 0
  {
    if start <= now then now - start else 0
  }

  /** The fields of a status record, as one value. */
  datatype Info = Info(kind: TaskKind, startTime: nat, outBuf: seq<string>, errBuf: seq<string>)

  /** `TaskInfo`: the record a worker and its two reader threads update
      under one lock. Clock readings are passed in as `now`. */
  class TaskInfo {
    var kind: TaskKind
    var startTime: nat
    var outBuf: OutLines
    var errBuf: seq<string>
    /** Every value assigned to `kind` since construction, in order. */
    ghost var kinds: seq<TaskKind>

    function Snapshot(): Info
      reads this
    {
      Info(kind, startTime, outBuf, errBuf)
    }

    /** `TaskInfo::new`. */
    constructor (now: nat)
      ensures kind == Uninit && startTime == now && outBuf == [] && errBuf == []
      ensures kinds == []
    {
      kind := Uninit;
      startTime := now;
      outBuf := [];
      errBuf := [];
      kinds := [];
    }

    /** The bookkeeping of `start_mxdys_task` / `start_sligocki_task`:
        set the marker and clear the stderr log, in one critical section. */
    method BeginStage(k: TaskKind)
      modifies this
      ensures kind == k && errBuf == []
      ensures startTime == old(startTime) && outBuf == old(outBuf)
      ensures kinds == old(kinds) + [k]
    {
      kind := k;
      errBuf := [];
      kinds := kinds + [k];
    }

    /** Assign the marker alone (`MoveFile`, `Done`). */
    method SetKind(k: TaskKind)
      modifies this
      ensures kind == k
      ensures startTime == old(startTime) && outBuf == old(outBuf) && errBuf == old(errBuf)
      ensures kinds == old(kinds) + [k]
    {
      kind := k;
      kinds := kinds + [k];
    }

    /** The start-time reset `ProcessWithBuffer::new` does before spawning. */
    method ResetStartTime(now: nat)
      modifies this
      ensures startTime == now
      ensures kind == old(kind) && outBuf == old(outBuf) && errBuf == old(errBuf)
      ensures kinds == old(kinds)
    {
      startTime := now;
    }

    /** One step of the stdout reader: a line, or the error's text, pushed
        into the ring buffer. */
    method PushStdout(r: LineRead)
      modifies this
      ensures outBuf == PushBack(old(outBuf), LineText(r))
      ensures kind == old(kind) && startTime == old(startTime) && errBuf == old(errBuf)
      ensures kinds == old(kinds)
    {
      outBuf := PushBack(outBuf, LineText(r));
    }

    /** One step of the stderr reader: a line, or the error's text, appended
        without bound. */
    method PushStderr(r: LineRead)
      modifies this
      ensures errBuf == old(errBuf) + [LineText(r)]
      ensures kind == old(kind) && startTime == old(startTime) && outBuf == old(outBuf)
      ensures kinds == old(kinds)
    {
      errBuf := errBuf + [LineText(r)];
    }

    /** The stdout reader thread, run until end of stream: every item read is
        pushed in turn (`PushAll`), so the buffer holds the latest 20 of the old
        lines followed by the new ones. */
    method ReadStdout(rs: seq<LineRead>)
      modifies this
      ensures outBuf == PushAll(old(outBuf), Texts(rs)) == Latest(old(outBuf) + Texts(rs))
      ensures kind == old(kind) && startTime == old(startTime) && errBuf == old(errBuf)
      ensures kinds == old(kinds)
    {
      for k := 0 to |rs|
        invariant outBuf == Latest(old(outBuf) + Texts(rs[..k]))
        invariant kind == old(kind) && startTime == old(startTime) && errBuf == old(errBuf)
        invariant kinds == old(kinds)
      {
        ghost var before := old(outBuf) + Texts(rs[..k]);
        PushStdout(rs[k]);
        LatestOfLatest(before, [LineText(rs[k])]);
        TextsPrefix(rs, k);
        AppendAssoc(old(outBuf), Texts(rs[..k]), [LineText(rs[k])]);
      }
      assert rs[..|rs|] == rs;
      PushAllIsLatest(old(outBuf), Texts(rs));
    }

    /** The stderr reader thread, run until end of stream. */
    method ReadStderr(rs: seq<LineRead>)
      modifies this
      ensures errBuf == old(errBuf) + Texts(rs)
      ensures kind == old(kind) && startTime == old(startTime) && outBuf == old(outBuf)
      ensures kinds == old(kinds)
    {
      for k := 0 to |rs|
        invariant errBuf == old(errBuf) + Texts(rs[..k])
        invariant kind == old(kind) && startTime == old(startTime) && outBuf == old(outBuf)
        invariant kinds == old(kinds)
      {
        PushStderr(rs[k]);
        TextsPrefix(rs, k);
        AppendAssoc(old(errBuf), Texts(rs[..k]), [LineText(rs[k])]);
      }
      assert rs[..|rs|] == rs;
    }
  }
}
