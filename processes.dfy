/** One run of a compiled assembly under `dotnet`, as the three runners drive it: what the
    child process sees on standard input and what the runner keeps of its two output streams. */
module Processes {
  import opened Wrappers
  import opened Text
  import opened Paths

  /** One element of an input list: `None` is a `null` entry. */
  type Input = Option<string>

  /** What a launched process reads on standard input. `LeftOpen`: nothing is written and the
      channel is not closed before the output streams are read. `Line(text)`: `text` and a
      newline are written, then the channel is closed. */
  datatype Stdin = LeftOpen | Line(text: string)

  /** Everything the process wrote on standard output and standard error (`ReadToEnd`). */
  datatype Streams = Streams(stdout: string, stderr: string)

  /** One process launch, as a spy on the launcher would record it: the assembly path, what was
      on disk at that moment at the assembly's path and at its side-car's path (`None`: no such
      file), and what the process read on standard input. */
  datatype Launch = Launch(assembly: Path, image: Option<string>, config: Option<string>, stdin: Stdin)

  /** Standard input for one input: it is written (with a newline, then closed) only when it is
      neither null nor empty. */
  function StdinFor(input: Input): (r: Stdin)
    ensures r.Line? <==> input.Some? && input.value != ""
    ensures r.Line? ==> r.text == input.value
  {
    if IsNullOrEmpty(input) then LeftOpen else Line(input.value)
  }

  /** The "stderr wins, trimmed" rule: the trimmed standard error when it holds anything but
      white space, otherwise the trimmed standard output. A selected standard error is never
      empty, and the result is empty only when both streams are blank. */
  function SelectOutput(s: Streams): (r: string)
    ensures !AllWhiteSpace(s.stderr) ==> r == Trim(s.stderr) && r != ""
    ensures AllWhiteSpace(s.stderr) ==> r == Trim(s.stdout)
    ensures r == "" <==> AllWhiteSpace(s.stdout) && AllWhiteSpace(s.stderr)
  {
    if !IsNullOrWhiteSpace(Some(s.stderr)) then Trim(s.stderr) else Trim(s.stdout)
  }

  /** One run per input, in input order; an empty list means no run at all. */
  function PlanPerInput(inputs: seq<Input>): (plan: seq<Stdin>)
    ensures |plan| == |inputs|
    ensures forall i :: 0 <= i < |inputs| ==> plan[i] == StdinFor(inputs[i])
  {
    if inputs == [] then [] else [StdinFor(inputs[0])] + PlanPerInput(inputs[1..])
  }

  /** One run per input, in input order, except that a null or empty list still gets one run
      with nothing on standard input. */
  function PlanWithDefaultRun(inputs: Option<seq<Input>>): (plan: seq<Stdin>)
    ensures |plan| >= 1
    ensures inputs.None? || inputs.value == [] ==> plan == [LeftOpen]
    ensures inputs.Some? && inputs.value != [] ==> plan == PlanPerInput(inputs.value)
  {
    if inputs.None? || |inputs.value| == 0 then [LeftOpen] else PlanPerInput(inputs.value)
  }

  /** The launches of `assembly`, one per planned standard input, in order, each seeing the
      same assembly image and side-car config on disk. */
  function LaunchesOf(assembly: Path, image: Option<string>, config: Option<string>, plan: seq<Stdin>)
    : (r: seq<Launch>)
    ensures |r| == |plan|
    ensures forall i :: 0 <= i < |plan| ==> r[i] == Launch(assembly, image, config, plan[i])
  {
    if plan == [] then []
    else [Launch(assembly, image, config, plan[0])] + LaunchesOf(assembly, image, config, plan[1..])
  }

  /** A trace that launched `assembly` once per input, in order, with the same files on disk,
      is the per-input plan's. */
  lemma LaunchedPerInput(assembly: Path, image: Option<string>, config: Option<string>,
                         inputs: seq<Input>, launched: seq<Launch>)
    requires |launched| == |inputs|
    requires forall k :: 0 <= k < |inputs| ==> launched[k] == Launch(assembly, image, config, StdinFor(inputs[k]))
    ensures launched == LaunchesOf(assembly, image, config, PlanPerInput(inputs))
  {
  }
}

/** The operating system as the runners see it: files, locks, the `dotnet` launcher and the
    temporary directory. */
module Platform {
  import opened Wrappers
  import opened Paths
  import opened RuntimeConfig
  import opened Processes

  class Host {
    /** How a launched process answers: a function of everything it sees, namely the assembly
        image and side-car config on disk when it starts and its standard input. */
    const program: Launch -> Streams
    /** `Path.GetTempPath()` */
    const tempDir: string
    /** The files on disk and their contents. */
    var files: map<Path, string>
    /** Files some process still holds open: `File.Delete` throws on them. */
    var locked: set<Path>
    /** Every process launched so far, in order. */
    var launches: seq<Launch>

    constructor (program: Launch -> Streams, tempDir: string, files: map<Path, string>, locked: set<Path>)
      ensures this.program == program && this.tempDir == tempDir
      ensures this.files == files && this.locked == locked && launches == []
    {
      this.program := program;
      this.tempDir := tempDir;
      this.files := files;
      this.locked := locked;
      launches := [];
    }

    /** The current contents of `p`, if there is such a file. */
    function Contents(p: Path): Option<string>
      reads this
    {
      if p in files then Some(files[p]) else None
    }

    /** The current contents of `p`, empty when there is no such file. */
    function Existing(p: Path): string
      reads this
    {
      if p in files then files[p] else ""
    }

    /** `File.WriteAllText`: creates or overwrites. */
    method WriteAllText(p: Path, text: string)
      modifies this`files
      ensures files == old(files)[p := text]
    {
      files := files[p := text];
    }

    /** `File.AppendAllText`: creates, or appends to what is there. */
    method AppendAllText(p: Path, text: string)
      modifies this`files
      ensures files == old(files)[p := old(Existing(p)) + text]
    {
      files := files[p := Existing(p) + text];
    }

    /** `File.Delete`: throws on a locked file and changes nothing; a missing file is no error. */
    method Delete(p: Path) returns (thrown: bool)
      modifies this`files
      ensures thrown <==> p in old(files) && p in locked
      ensures files == if thrown then old(files) else old(files) - {p}
    {
      thrown := p in files && p in locked;
      if !thrown {
        files := files - {p};
      }
    }

    /** `dotnet <assembly>` with redirected streams: start it on what is on disk now, feed
        `stdin`, read both streams to their end. */
    method Run(assembly: Path, stdin: Stdin) returns (streams: Streams)
      modifies this`launches
      ensures launches == old(launches) + [Launch(assembly, Contents(assembly), Contents(SideCarPath(assembly)), stdin)]
      ensures streams == program(Launch(assembly, Contents(assembly), Contents(SideCarPath(assembly)), stdin))
    {
      var launch := Launch(assembly, Contents(assembly), Contents(SideCarPath(assembly)), stdin);
      launches := launches + [launch];
      streams := program(launch);
    }
  }
}
