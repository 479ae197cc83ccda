/** Pure helpers of the worker pool: task identifiers, decimal rendering,
    the artifact file name, the exit-outcome text and the two external
    commands a task runs. */
module Format {

  /** Task identifiers are Rust `u32` values. */
  type u32 = x: int | 0 <= x < 0x1_0000_0000

  predicate IsDigit(c: char) {
    '0' <= c <= '9'
  }

  predicate AllDigits(s: string) {
    forall k :: 0 <= k < |s| ==> IsDigit(s[k])
  }

  function DigitChar(d: nat): (c: char)
    requires d < 10
    ensures IsDigit(c) && c as int - '0' as int == d
  {
    ('0' as int + d) as char
  }

  /** `format!("{}", n)`: the shortest decimal rendering of `n`. */
  function Decimal(n: nat): (s: string)
    ensures 1 <= |s| && AllDigits(s)
    ensures s[0] == '0' ==> n == 0
    ensures |s| > 1 ==> s[0] != '0'
    decreases n
  {
    if n < 10 then [DigitChar(n)] else Decimal(n / 10) + [DigitChar(n % 10)]
  }

  /** The value of a string of decimal digits (the empty string reads as 0). */
  function ParseDecimal(s: string): nat
    requires AllDigits(s)
    decreases |s|
  {
    if s == [] then 0 else 10 * ParseDecimal(s[..|s| - 1]) + (s[|s| - 1] as int - '0' as int)
  }

  lemma {:induction false} ParseDecimalOfDecimal(n: nat)
    ensures ParseDecimal(Decimal(n)) == n
    decreases n
  {
    if n >= 10 {
      ParseDecimalOfDecimal(n / 10);
      var s := Decimal(n);
      assert s[..|s| - 1] == Decimal(n / 10);
    }
  }

  function Zeros(k: nat): (z: string)
    ensures |z| == k && forall j :: 0 <= j < k ==> z[j] == '0'
  {
    seq(k, _ => '0')
  }

  lemma {:induction false} ParseZeros(k: nat)
    ensures AllDigits(Zeros(k)) && ParseDecimal(Zeros(k)) == 0
    decreases k
  {
    if k > 0 {
      ParseZeros(k - 1);
      assert Zeros(k)[..k - 1] == Zeros(k - 1);
    }
  }

  /** Leading zeros do not change the value of a decimal string. */
  lemma {:induction false} ParseIgnoresLeadingZeros(k: nat, s: string)
    requires AllDigits(s)
    ensures AllDigits(Zeros(k) + s) && ParseDecimal(Zeros(k) + s) == ParseDecimal(s)
    decreases |s|
  {
    if s == [] {
      assert Zeros(k) + s == Zeros(k);
      ParseZeros(k);
    } else {
      var t := Zeros(k) + s;
      ParseIgnoresLeadingZeros(k, s[..|s| - 1]);
      assert t[..|t| - 1] == Zeros(k) + s[..|s| - 1];
    }
  }

  /** The `{:0w}` format flag: left-pad with zeros to at least `width` characters. */
  function ZeroPadded(s: string, width: nat): (r: string)
    ensures |r| == if |s| >= width then |s| else width
    ensures r == Zeros(|r| - |s|) + s
  {
    if |s| >= width then s else Zeros(width - |s|) + s
  }

  const ArtifactPrefix: string := "bb7_"
  const ArtifactSuffix: string := ".out.pb"

  /** `format!("bb7_{:06}.out.pb", task_id)`, the file stage B writes and
      the pipeline relocates. */
  function ArtifactName(id: u32): (name: string)
    ensures |name| >= |ArtifactPrefix| + 6 + |ArtifactSuffix|
  {
    ArtifactPrefix + ZeroPadded(Decimal(id), 6) + ArtifactSuffix
  }

  /** The digits between the prefix and the suffix of an artifact name. */
  function ArtifactDigits(name: string): string
    requires |name| >= |ArtifactPrefix| + |ArtifactSuffix|
  {
    name[|ArtifactPrefix|..|name| - |ArtifactSuffix|]
  }

  /** The artifact name is "bb7_", then at least six decimal digits that
      spell the id, then ".out.pb"; so the id can be read back from it. */
  lemma ArtifactNameLayout(id: u32)
    ensures var name := ArtifactName(id);
      |name| == |ArtifactPrefix| + (if |Decimal(id)| >= 6 then |Decimal(id)| else 6) + |ArtifactSuffix|
      && name[..|ArtifactPrefix|] == ArtifactPrefix
      && name[|name| - |ArtifactSuffix|..] == ArtifactSuffix
      && |ArtifactDigits(name)| >= 6
      && AllDigits(ArtifactDigits(name))
      && ParseDecimal(ArtifactDigits(name)) == id
  {
    var d := Decimal(id);
    var p := ZeroPadded(d, 6);
    var name := ArtifactName(id);
    assert ArtifactDigits(name) == p;
    ParseIgnoresLeadingZeros(|p| - |d|, d);
    ParseDecimalOfDecimal(id);
  }

  /** Distinct tasks never share an artifact file. */
  lemma ArtifactNameInjective(a: u32, b: u32)
    requires ArtifactName(a) == ArtifactName(b)
    ensures a == b
  {
    ArtifactNameLayout(a);
    ArtifactNameLayout(b);
  }

  /** What `Child::wait` yields: an I/O error, or an exit status that
      reports `success()` and has a `Display` text. */
  datatype ExitOutcome =
    | WaitFailed
    | Exited(success: bool, display: string)

  /** The text logged for a finished stage. */
  function ExitString(o: ExitOutcome): (r: string)
    ensures o.WaitFailed? ==> r == "already exited"
    ensures o.Exited? && o.success ==> r == "success"
    ensures o.Exited? && !o.success ==> r == o.display
  {
    match o
    case WaitFailed => "already exited"
    case Exited(ok, text) => if ok then "success" else text
  }

  const WorkingDir: string := "/path/to/some/folder"
  const CompletedDir: string := "/some/other/folder"
  const MxdysExecutable: string := "/path/to/mxdys/executable"
  const PythonExecutable: string := "python"
  const EnumeratePyPath: string := "/something/something/Code/Enumerate.py"

  /** An external command: program, arguments and working directory. */
  datatype Command = Command(program: string, args: seq<string>, dir: string)

  /** `Path::new(dir).join(file)`. */
  datatype Path = Path(dir: string, file: string)

  /** Stage A: the enumeration executable with `enum <id>`. */
  function MxdysCommand(id: u32): (c: Command)
    ensures c.program == MxdysExecutable && c.dir == WorkingDir
    ensures |c.args| == 2 && c.args[0] == "enum"
    ensures AllDigits(c.args[1]) && ParseDecimal(c.args[1]) == id
    ensures c.args[1] == Decimal(id)
  {
    ParseDecimalOfDecimal(id);
    Command(MxdysExecutable, ["enum", Decimal(id)], WorkingDir)
  }

  /** Stage B: the enumeration script, reading `holdouts_<id>.txt` and
      writing the task's artifact. */
  function SligockiCommand(id: u32): (c: Command)
    ensures c.program == PythonExecutable && c.dir == WorkingDir
    ensures |c.args| == 14 && c.args[0] == EnumeratePyPath
    ensures c.args[1] == "--infile" && c.args[2] == "holdouts_" + Decimal(id) + ".txt"
    ensures c.args[3] == "--outfile" && c.args[4] == ArtifactName(id)
  {
    Command(PythonExecutable,
      [EnumeratePyPath,
       "--infile", "holdouts_" + Decimal(id) + ".txt",
       "--outfile", ArtifactName(id),
       "-r", "--no-steps", "--exp-linear-rules", "--max-loops=100_000",
       "--block-mult=2", "--time=30", "--force", "--save-freq=50",
       "--debug-print-current"],
      WorkingDir)
  }

  /** Where the relocation step looks for the artifact, and where it moves it. */
  function ArtifactSource(id: u32): (p: Path)
    ensures p.dir == MxdysCommand(id).dir == SligockiCommand(id).dir
    ensures p.file == ArtifactName(id)
  {
    Path(WorkingDir, ArtifactName(id))
  }

  /** The move keeps the file name and changes only the directory. */
  function ArtifactTarget(id: u32): (p: Path)
    ensures p.file == ArtifactSource(id).file && p.dir == CompletedDir
    ensures p != ArtifactSource(id)
  {
    Path(CompletedDir, ArtifactName(id))
  }

  /** Stage B is told to write exactly the file that relocation later moves:
      its one `--outfile` argument is followed by the artifact name, the
      file name of both relocation paths, and it runs in the directory the
      relocation source lies in. */
  lemma OutfileIsRelocatedArtifact(id: u32)
    ensures var args := SligockiCommand(id).args;
      (forall k :: 0 <= k < |args| && args[k] == "--outfile" ==> k == 3)
      && args[3] == "--outfile"
      && args[4] == ArtifactSource(id).file == ArtifactTarget(id).file == ArtifactName(id)
      && SligockiCommand(id).dir == ArtifactSource(id).dir
  {
    var args := SligockiCommand(id).args;
    ArtifactNameLayout(id);
    assert args[2][0] == 'h';
    assert args[4][0] == 'b';
  }
}
